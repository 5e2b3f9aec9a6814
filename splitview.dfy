// SplitView (splitview.cpp): a horizontal positioner whose child items are
// the columns of the active SplitViewLayout. Each layout lists ViewColumn
// configurations; the first layout whose `when` holds is active, and its
// columns decide which children are visible and how wide they are.
module SplitView {
  import opened Common

  /** ViewColumnPrivate: the column index, preferred/minimum/maximum width, fillWidth and the resized latch. */
  datatype Column = Column(column: int, preferredWidth: real, minimumWidth: real, maximumWidth: real,
                           fillWidth: bool, resized: bool)

  /** A SplitViewLayout: its `when` condition and its columnData. */
  datatype Layout = Layout(when: bool, columns: seq<Column>)

  /**
   * A child item of the view: whether it carries SplitView attached
   * properties, the attached column (configure()), whether it is visible and
   * its implicit width.
   */
  datatype Child = Child(attached: bool, column: int, visible: bool, implicitWidth: real)

  /** RelayoutOperation as its two flags; RecalculateAll sets both. */
  datatype Operation = Operation(setPreferredSize: bool, calculateFillWidth: bool)

  const RecalculateAll := Operation(true, true)
  const CalculateFillWidth := Operation(false, true)

  /** The view's state: columnLatouts, activeLayout (an index), the child items, dirty and componentComplete. */
  datatype ViewModel = ViewModel(layouts: seq<Layout>, active: Option<nat>, children: seq<Child>,
                                 dirty: bool, complete: bool)

  // ---------------------------------------------------------------------
  // ViewColumn

  /** The width a resize by delta asks for is within [minimumWidth, maximumWidth]. */
  predicate ResizeFits(c: Column, delta: real)
  {
    c.minimumWidth <= c.preferredWidth + delta <= c.maximumWidth
  }

  /** ViewColumn::resize on the column's data. */
  function AfterResize(c: Column, delta: real): Column
  {
    c.(resized := true, preferredWidth := if ResizeFits(c, delta) then c.preferredWidth + delta else c.preferredWidth)
  }

  /** resize always marks the column resized; it moves preferredWidth by delta when that fits and not at all otherwise. */
  lemma ResizeRule(c: Column, delta: real)
    ensures AfterResize(c, delta).resized
    ensures ResizeFits(c, delta) ==> AfterResize(c, delta).preferredWidth == c.preferredWidth + delta
    ensures !ResizeFits(c, delta) ==> AfterResize(c, delta).preferredWidth == c.preferredWidth
    ensures AfterResize(c, delta).(resized := c.resized, preferredWidth := c.preferredWidth) == c
  {
  }

  /** An accepted resize of a column within its limits is undone by the opposite resize. */
  lemma ResizeUndo(c: Column, delta: real)
    requires c.minimumWidth <= c.preferredWidth <= c.maximumWidth
    requires ResizeFits(c, delta)
    ensures ResizeFits(AfterResize(c, delta), -delta)
    ensures AfterResize(AfterResize(c, delta), -delta) == c.(resized := true)
  {
  }

  // ---------------------------------------------------------------------
  // Layouts and the attached configuration

  /** The columns of a layout carry their own index, as data_Append numbers them. */
  predicate Numbered(l: Layout)
  {
    forall k :: 0 <= k < |l.columns| ==> l.columns[k].column == k
  }

  /** SplitViewLayoutPrivate::data_Append: the column gets the list size as its index. */
  function ColumnAppended(l: Layout, c: Column): (r: Layout)
    ensures |r.columns| == |l.columns| + 1 && r.when == l.when
    ensures r.columns[..|l.columns|] == l.columns
    ensures r.columns[|l.columns|] == c.(column := |l.columns|)
  {
    l.(columns := l.columns + [c.(column := |l.columns|)])
  }

  /** Appending keeps the columns numbered 0, 1, 2, ... in order. */
  lemma ColumnAppendedNumbered(l: Layout, c: Column)
    requires Numbered(l)
    ensures Numbered(ColumnAppended(l, c))
  {
  }

  /** The columns of the active layout; none when there is no active layout. */
  function ActiveColumns(m: ViewModel): seq<Column>
  {
    if m.active.Some? && m.active.value < |m.layouts| then m.layouts[m.active.value].columns else []
  }

  /**
   * SplitViewAttachedPrivate::config (reached through getConfig) for a child
   * and the active layout's columns: the index of its configuration, or None
   * when it has no attached properties, its column is negative or the layout
   * has no such column.
   */
  function ConfigIndex(c: Child, cols: seq<Column>): (r: Option<nat>)
    ensures r.Some? <==> c.attached && 0 <= c.column < |cols|
    ensures r.Some? ==> r.value == c.column
  {
    if c.attached && 0 <= c.column < |cols| then Some(c.column as nat) else None
  }

  /** A child's configuration in the view's active layout. */
  function Config(m: ViewModel, i: nat): Option<nat>
    requires i < |m.children|
  {
    ConfigIndex(m.children[i], ActiveColumns(m))
  }

  /**
   * The view's invariant: the active layout is one of the layouts, all
   * layouts are numbered, and an attached child's column is its position
   * among the child items (data_Append configures it with childItems().size() - 1).
   */
  predicate ViewValid(m: ViewModel)
  {
    (m.active.Some? ==> m.active.value < |m.layouts|) &&
    (forall li :: 0 <= li < |m.layouts| ==> Numbered(m.layouts[li])) &&
    (forall i :: 0 <= i < |m.children| && m.children[i].attached ==> m.children[i].column == i)
  }

  /** config() is null without an active layout, and otherwise exactly when the column is within the active layout. */
  lemma ConfigRule(m: ViewModel, i: nat)
    requires ViewValid(m) && i < |m.children|
    ensures m.active.None? ==> Config(m, i).None?
    ensures m.active.Some? ==>
      (Config(m, i).Some? <==> m.children[i].attached && i < |m.layouts[m.active.value].columns|)
    ensures Config(m, i).Some? ==> Config(m, i).value == i
  {
  }

  // ---------------------------------------------------------------------
  // changeLayout and updateLayout

  /** The first layout whose `when` holds. */
  function FirstWhen(layouts: seq<Layout>): (r: Option<nat>)
    ensures r.Some? ==> r.value < |layouts| && layouts[r.value].when
    ensures r.Some? ==> forall j :: 0 <= j < r.value ==> !layouts[j].when
    ensures r.None? ==> forall j :: 0 <= j < |layouts| ==> !layouts[j].when
  {
    if |layouts| == 0 then None
    else if layouts[0].when then Some(0)
    else match FirstWhen(layouts[1..])
         case None => None
         case Some(k) => Some(k + 1)
  }

  /** The choice depends on the `when` flags alone. */
  lemma FirstWhenOfWhens(a: seq<Layout>, b: seq<Layout>)
    requires |a| == |b| && forall j :: 0 <= j < |a| ==> a[j].when == b[j].when
    ensures FirstWhen(a) == FirstWhen(b)
  {
  }

  /**
   * updateLayout's visibility for child i: hidden without a configuration,
   * otherwise shown when that configuration's column is within the active layout.
   */
  function Visible(m: ViewModel, i: nat): bool
    requires i < |m.children|
  {
    match Config(m, i)
    case None => false
    case Some(k) => m.active.Some? && ActiveColumns(m)[k].column < |ActiveColumns(m)|
  }

  /** Shown exactly when configured. */
  lemma VisibleIffConfigured(m: ViewModel, i: nat)
    requires ViewValid(m) && i < |m.children|
    ensures Visible(m, i) <==> Config(m, i).Some?
  {
  }

  /** updateLayout: every child's visibility becomes Visible, and dirty records any change. */
  function AfterUpdateLayout(m: ViewModel): ViewModel
  {
    m.(children := seq(|m.children|, i requires 0 <= i < |m.children| => m.children[i].(visible := Visible(m, i))),
       dirty := m.dirty || exists i :: 0 <= i < |m.children| && m.children[i].visible != Visible(m, i))
  }

  /** updateLayout only touches visibility and dirty, and it keeps the view valid. */
  lemma UpdateLayoutFrame(m: ViewModel)
    requires ViewValid(m)
    ensures var r := AfterUpdateLayout(m);
      ViewValid(r) && r.layouts == m.layouts && r.active == m.active && r.complete == m.complete &&
      |r.children| == |m.children| &&
      forall i :: 0 <= i < |m.children| ==> r.children[i] == m.children[i].(visible := r.children[i].visible) &&
                                            (r.children[i].visible <==> Config(m, i).Some?)
  {
    var r := AfterUpdateLayout(m);
    forall i | 0 <= i < |m.children|
      ensures r.children[i].visible <==> Config(m, i).Some?
    {
      VisibleIffConfigured(m, i);
    }
  }

  /** A second updateLayout changes nothing: visibility already matches and dirty stays as it is. */
  lemma UpdateLayoutIdempotent(m: ViewModel)
    ensures AfterUpdateLayout(AfterUpdateLayout(m)) == AfterUpdateLayout(m)
  {
    var r := AfterUpdateLayout(m);
    assert forall i :: 0 <= i < |r.children| ==> Config(r, i) == Config(m, i);
    assert forall i :: 0 <= i < |r.children| ==> Visible(r, i) == Visible(m, i);
    assert !exists i :: 0 <= i < |r.children| && r.children[i].visible != Visible(r, i);
    assert AfterUpdateLayout(r).children == r.children;
  }

  // ---------------------------------------------------------------------
  // recalculateWidths

  /** The first loop's accumulators: the children, the fillStack and fillWidth. */
  datatype Pass = Pass(children: seq<Child>, stack: seq<nat>, fillWidth: real)

  /** A fill-width column that was never resized waits for a share of the remaining width. */
  predicate Fills(c: Column)
  {
    c.fillWidth && !c.resized
  }

  /** The view's width less the spacing between n columns (columnData.size() - 1 gaps, as an int). */
  function FillStart(width: real, spacing: real, n: nat): real
  {
    width - spacing * ((n - 1) as real)
  }

  /** The first loop's body for child i. */
  function FirstPassStep(children: seq<Child>, cols: seq<Column>, op: Operation, i: nat, p: Pass): (r: Pass)
    requires i < |children| == |p.children|
    ensures |r.children| == |children|
  {
    match ConfigIndex(children[i], cols)
    case None => p
    case Some(k) =>
      if Fills(cols[k]) then
        (if op.calculateFillWidth then p.(stack := p.stack + [i]) else p)
      else
        p.(children := if op.setPreferredSize then p.children[i := p.children[i].(implicitWidth := cols[k].preferredWidth)]
                       else p.children,
           fillWidth := if op.calculateFillWidth then p.fillWidth - cols[k].preferredWidth else p.fillWidth)
  }

  /** The first loop of recalculateWidths over the first n children, starting from fillWidth. */
  function FirstPass(children: seq<Child>, cols: seq<Column>, op: Operation, n: nat, fillWidth: real): (r: Pass)
    requires n <= |children|
    ensures |r.children| == |children|
  {
    if n == 0 then Pass(children, [], fillWidth)
    else FirstPassStep(children, cols, op, n - 1, FirstPass(children, cols, op, n - 1, fillWidth))
  }

  /** The first n children that fill. */
  function FillStack(children: seq<Child>, cols: seq<Column>, n: nat): seq<nat>
    requires n <= |children|
  {
    if n == 0 then []
    else
      var s := FillStack(children, cols, n - 1);
      match ConfigIndex(children[n - 1], cols)
      case None => s
      case Some(k) => if Fills(cols[k]) then s + [n - 1] else s
  }

  /** The sum of the preferred widths of the first n configured children that do not fill. */
  function FixedWidth(children: seq<Child>, cols: seq<Column>, n: nat): real
    requires n <= |children|
  {
    if n == 0 then 0.0
    else
      var w := FixedWidth(children, cols, n - 1);
      match ConfigIndex(children[n - 1], cols)
      case None => w
      case Some(k) => if Fills(cols[k]) then w else w + cols[k].preferredWidth
  }

  /**
   * With CalculateFillWidth the first loop stacks exactly the filling children
   * and takes the other columns' preferred widths off fillWidth; without it,
   * nothing is stacked and fillWidth is left alone.
   */
  lemma {:induction false} FirstPassAccumulates(children: seq<Child>, cols: seq<Column>, op: Operation, n: nat, fw: real)
    requires n <= |children|
    ensures op.calculateFillWidth ==> FirstPass(children, cols, op, n, fw).stack == FillStack(children, cols, n)
    ensures op.calculateFillWidth ==> FirstPass(children, cols, op, n, fw).fillWidth == fw - FixedWidth(children, cols, n)
    ensures !op.calculateFillWidth ==> FirstPass(children, cols, op, n, fw).stack == [] &&
                                       FirstPass(children, cols, op, n, fw).fillWidth == fw
  {
    if n > 0 {
      FirstPassAccumulates(children, cols, op, n - 1, fw);
    }
  }

  /** The first loop changes implicit widths only. */
  lemma {:induction false} FirstPassFrame(children: seq<Child>, cols: seq<Column>, op: Operation, n: nat, fw: real)
    requires n <= |children|
    ensures var r := FirstPass(children, cols, op, n, fw);
      forall i :: 0 <= i < |children| ==> r.children[i] == children[i].(implicitWidth := r.children[i].implicitWidth)
  {
    if n > 0 {
      FirstPassFrame(children, cols, op, n - 1, fw);
    }
  }

  /**
   * With SetPreferredSize, every configured child that does not fill gets
   * its column's preferred width; every other child keeps its implicit width.
   */
  lemma {:induction false} FirstPassSizes(children: seq<Child>, cols: seq<Column>, op: Operation, n: nat, fw: real, i: nat)
    requires n <= |children| && i < |children|
    ensures var r := FirstPass(children, cols, op, n, fw);
      match ConfigIndex(children[i], cols)
      case Some(k) =>
        if i < n && !Fills(cols[k]) && op.setPreferredSize
        then r.children[i].implicitWidth == cols[k].preferredWidth
        else r.children[i].implicitWidth == children[i].implicitWidth
      case None => r.children[i].implicitWidth == children[i].implicitWidth
  {
    if n > 0 {
      FirstPassSizes(children, cols, op, n - 1, fw, i);
    }
  }

  /** The children and the active layout's columns, as the second loop updates them. */
  datatype Widths = Widths(children: seq<Child>, columns: seq<Column>)

  /** The second loop's body: the share goes to child j and its column when the column's limits allow it. */
  function ApplyShare(w: Widths, j: nat, share: real): (r: Widths)
    ensures |r.children| == |w.children| && |r.columns| == |w.columns|
  {
    if j < |w.children| && ConfigIndex(w.children[j], w.columns).Some? then
      var k := w.children[j].column;
      var c := w.columns[k];
      if c.minimumWidth <= share <= c.maximumWidth then
        Widths(w.children[j := w.children[j].(implicitWidth := share)], w.columns[k := c.(preferredWidth := share)])
      else w
    else w
  }

  /** The second loop over the first n stacked children. */
  function SecondPass(w: Widths, stack: seq<nat>, share: real, n: nat): (r: Widths)
    requires n <= |stack|
    ensures |r.children| == |w.children| && |r.columns| == |w.columns|
  {
    if n == 0 then w else ApplyShare(SecondPass(w, stack, share, n - 1), stack[n - 1], share)
  }

  /** The second loop changes the children's implicit widths and the columns' preferred widths only. */
  lemma {:induction false} SecondPassFrame(w: Widths, stack: seq<nat>, share: real, n: nat)
    requires n <= |stack|
    ensures var r := SecondPass(w, stack, share, n);
      (forall i :: 0 <= i < |w.children| ==> r.children[i] == w.children[i].(implicitWidth := r.children[i].implicitWidth)) &&
      (forall k :: 0 <= k < |w.columns| ==> r.columns[k] == w.columns[k].(preferredWidth := r.columns[k].preferredWidth))
  {
    if n > 0 {
      SecondPassFrame(w, stack, share, n - 1);
    }
  }

  /** Child j's column took the share, and the child with it, exactly when the share fits its limits. */
  predicate ShareApplied(w: Widths, r: Widths, j: nat, share: real)
    requires j < |w.children| && ConfigIndex(w.children[j], w.columns).Some?
    requires |r.children| == |w.children| && |r.columns| == |w.columns|
  {
    var k := w.children[j].column;
    var c := w.columns[k];
    if c.minimumWidth <= share <= c.maximumWidth
    then r.children[j].implicitWidth == share && r.columns[k].preferredWidth == share
    else r.children[j].implicitWidth == w.children[j].implicitWidth && r.columns[k] == c
  }

  /** Stack entries are distinct, configured children, in increasing order. */
  predicate StackOf(w: Widths, stack: seq<nat>)
  {
    (forall t :: 0 <= t < |stack| ==> stack[t] < |w.children| && ConfigIndex(w.children[stack[t]], w.columns).Some?) &&
    (forall t, t' :: 0 <= t < t' < |stack| ==> stack[t] < stack[t'])
  }

  /**
   * r is the state after the second loop's first n steps: each of those
   * stacked children has had the share applied or refused, and every other
   * child and column is as in w.
   */
  predicate SharedUpTo(w: Widths, r: Widths, stack: seq<nat>, share: real, n: nat)
    requires n <= |stack| && StackOf(w, stack)
    requires |r.children| == |w.children| && |r.columns| == |w.columns|
  {
    (forall t :: 0 <= t < n ==> ShareApplied(w, r, stack[t], share)) &&
    (forall i :: 0 <= i < |w.children| && i !in stack[..n] ==> r.children[i] == w.children[i]) &&
    (forall k :: 0 <= k < |w.columns| && k !in stack[..n] ==> r.columns[k] == w.columns[k])
  }

  /**
   * After the second loop over the first n stacked children, SharedUpTo
   * holds. Children own distinct columns (an attached column is the child's position).
   */
  lemma {:induction false} SecondPassShares(w: Widths, stack: seq<nat>, share: real, n: nat)
    requires n <= |stack| && StackOf(w, stack)
    requires forall i :: 0 <= i < |w.children| && w.children[i].attached ==> w.children[i].column == i
    ensures SharedUpTo(w, SecondPass(w, stack, share, n), stack, share, n)
  {
    if n > 0 {
      SecondPassShares(w, stack, share, n - 1);
      SecondPassFrame(w, stack, share, n - 1);
      SharedStep(w, SecondPass(w, stack, share, n - 1), stack, share, n);
    }
  }

  /** One more step of the second loop extends SharedUpTo by one stacked child. */
  lemma SharedStep(w: Widths, p: Widths, stack: seq<nat>, share: real, n: nat)
    requires 0 < n <= |stack| && StackOf(w, stack)
    requires forall i :: 0 <= i < |w.children| && w.children[i].attached ==> w.children[i].column == i
    requires |p.children| == |w.children| && |p.columns| == |w.columns|
    requires forall i :: 0 <= i < |w.children| ==> p.children[i] == w.children[i].(implicitWidth := p.children[i].implicitWidth)
    requires SharedUpTo(w, p, stack, share, n - 1)
    ensures SharedUpTo(w, ApplyShare(p, stack[n - 1], share), stack, share, n)
  {
    var j := stack[n - 1];
    assert stack[..n] == stack[..n - 1] + [j];
    assert j !in stack[..n - 1];
    var r := ApplyShare(p, j, share);
    assert p.children[j] == w.children[j] && p.columns[j] == w.columns[j];
    forall t | 0 <= t < n
      ensures ShareApplied(w, r, stack[t], share)
    {
      if t < n - 1 {
        assert stack[t] < j;
        assert ShareApplied(w, p, stack[t], share);
      }
    }
  }

  /** The share each filling child is offered: what is left after the spacing and the fixed columns, in equal parts. */
  function Share(p: Pass): real
  {
    if |p.stack| == 0 then 0.0 else p.fillWidth / (|p.stack| as real)
  }

  /** recalculateWidths; width and spacing are the view's. */
  function AfterRecalculate(m: ViewModel, op: Operation, width: real, spacing: real): ViewModel
  {
    if m.active.None? || m.active.value >= |m.layouts| || (!m.complete && !m.dirty) then m
    else
      var a := m.active.value;
      var cols := m.layouts[a].columns;
      var p := FirstPass(m.children, cols, op, |m.children|, FillStart(width, spacing, |cols|));
      if |p.stack| > 0 && op.calculateFillWidth then
        var w := SecondPass(Widths(p.children, cols), p.stack, Share(p), |p.stack|);
        m.(children := w.children, layouts := m.layouts[a := m.layouts[a].(columns := w.columns)], dirty := false)
      else
        m.(children := p.children, dirty := false)
  }

  /** The first loop's result for the view's active layout. */
  function ViewPass(m: ViewModel, op: Operation, width: real, spacing: real): Pass
    requires m.active.Some? && m.active.value < |m.layouts|
  {
    var cols := m.layouts[m.active.value].columns;
    FirstPass(m.children, cols, op, |m.children|, FillStart(width, spacing, |cols|))
  }

  /** Nothing happens without an active layout, or before completion while nothing is dirty; otherwise dirty is cleared. */
  lemma RecalculateGuard(m: ViewModel, op: Operation, width: real, spacing: real)
    requires ViewValid(m)
    ensures m.active.None? || (!m.complete && !m.dirty) ==> AfterRecalculate(m, op, width, spacing) == m
    ensures m.active.Some? && (m.complete || m.dirty) ==> !AfterRecalculate(m, op, width, spacing).dirty
    ensures AfterRecalculate(m, op, width, spacing).active == m.active
    ensures AfterRecalculate(m, op, width, spacing).complete == m.complete
  {
  }

  /** recalculateWidths keeps the view valid and changes widths only. */
  lemma RecalculateFrame(m: ViewModel, op: Operation, width: real, spacing: real)
    requires ViewValid(m)
    ensures var r := AfterRecalculate(m, op, width, spacing);
      ViewValid(r) && |r.children| == |m.children| && |r.layouts| == |m.layouts| &&
      (forall i :: 0 <= i < |m.children| ==> r.children[i] == m.children[i].(implicitWidth := r.children[i].implicitWidth)) &&
      (forall li :: 0 <= li < |m.layouts| ==>
         r.layouts[li].when == m.layouts[li].when && |r.layouts[li].columns| == |m.layouts[li].columns|)
  {
    if m.active.Some? && (m.complete || m.dirty) {
      var a := m.active.value;
      var cols := m.layouts[a].columns;
      var p := ViewPass(m, op, width, spacing);
      FirstPassFrame(m.children, cols, op, |m.children|, FillStart(width, spacing, |cols|));
      if |p.stack| > 0 && op.calculateFillWidth {
        SecondPassFrame(Widths(p.children, cols), p.stack, Share(p), |p.stack|);
        var w := SecondPass(Widths(p.children, cols), p.stack, Share(p), |p.stack|);
        var r := AfterRecalculate(m, op, width, spacing);
        assert r.layouts[a].columns == w.columns;
        assert Numbered(r.layouts[a]);
      }
    }
  }

  /**
   * What recalculateWidths with RecalculateAll leaves for child i, which is
   * configured (as column i of the active layout, cols before and rcols
   * after) or not: a filling child and its column take the share when it
   * fits the column's limits and otherwise keep their widths; a child that
   * does not fill takes its column's preferred width; an unconfigured child
   * is untouched.
   */
  predicate ChildRecalculated(m: ViewModel, r: ViewModel, share: real, i: nat)
    requires ViewValid(m) && m.active.Some? && i < |m.children|
  {
    var cols := m.layouts[m.active.value].columns;
    |r.children| == |m.children| && |r.layouts| == |m.layouts| &&
    match Config(m, i)
    case None => r.children[i] == m.children[i]
    case Some(k) =>
      var rcols := r.layouts[m.active.value].columns;
      |rcols| == |cols| && k == i &&
      (Fills(cols[k]) && cols[k].minimumWidth <= share <= cols[k].maximumWidth ==>
        r.children[i].implicitWidth == share && rcols[k].preferredWidth == share) &&
      (Fills(cols[k]) && !(cols[k].minimumWidth <= share <= cols[k].maximumWidth) ==>
        r.children[i].implicitWidth == m.children[i].implicitWidth && rcols[k] == cols[k]) &&
      (!Fills(cols[k]) ==> r.children[i].implicitWidth == cols[k].preferredWidth && rcols[k] == cols[k])
  }

  /** With RecalculateAll, once there is something to do, every child ends as ChildRecalculated says. */
  lemma RecalculateShares(m: ViewModel, width: real, spacing: real, i: nat)
    requires ViewValid(m) && m.active.Some? && (m.complete || m.dirty) && i < |m.children|
    ensures ChildRecalculated(m, AfterRecalculate(m, RecalculateAll, width, spacing),
                              Share(ViewPass(m, RecalculateAll, width, spacing)), i)
  {
    var a := m.active.value;
    var cols := m.layouts[a].columns;
    var fw := FillStart(width, spacing, |cols|);
    var p := ViewPass(m, RecalculateAll, width, spacing);
    FirstPassAccumulates(m.children, cols, RecalculateAll, |m.children|, fw);
    FirstPassSizes(m.children, cols, RecalculateAll, |m.children|, fw, i);
    FirstPassFrame(m.children, cols, RecalculateAll, |m.children|, fw);
    FillStackHas(m.children, cols, |m.children|, i);
    var r := AfterRecalculate(m, RecalculateAll, width, spacing);
    if |p.stack| > 0 {
      var w0 := Widths(p.children, cols);
      FillStackShape(m.children, cols, |m.children|);
      assert StackOf(w0, p.stack);
      SecondPassShares(w0, p.stack, Share(p), |p.stack|);
      var w := SecondPass(w0, p.stack, Share(p), |p.stack|);
      assert r.children == w.children && r.layouts[a].columns == w.columns;
      assert p.stack[..|p.stack|] == p.stack;
      if i in p.stack {
        var t :| 0 <= t < |p.stack| && p.stack[t] == i;
        assert ShareApplied(w0, w, p.stack[t], Share(p));
      }
    }
  }

  /** The shares, the fixed columns' preferred widths and the spacing make up the view's width. */
  lemma SharesFillWidth(m: ViewModel, width: real, spacing: real)
    requires m.active.Some? && m.active.value < |m.layouts|
    ensures var cols := m.layouts[m.active.value].columns;
      var fill := FillStack(m.children, cols, |m.children|);
      |fill| > 0 ==>
        Share(ViewPass(m, RecalculateAll, width, spacing)) * (|fill| as real) +
        FixedWidth(m.children, cols, |m.children|) + spacing * ((|cols| - 1) as real) == width
  {
    var cols := m.layouts[m.active.value].columns;
    FirstPassAccumulates(m.children, cols, RecalculateAll, |m.children|, FillStart(width, spacing, |cols|));
    var fill := FillStack(m.children, cols, |m.children|);
    if |fill| > 0 {
      DivTimes(FillStart(width, spacing, |cols|) - FixedWidth(m.children, cols, |m.children|), |fill|);
    }
  }

  /** The fill stack holds increasing configured, filling children below n. */
  lemma {:induction false} FillStackShape(children: seq<Child>, cols: seq<Column>, n: nat)
    requires n <= |children|
    ensures forall t :: 0 <= t < |FillStack(children, cols, n)| ==> FillStack(children, cols, n)[t] < n
    ensures forall t :: 0 <= t < |FillStack(children, cols, n)| ==>
      ConfigIndex(children[FillStack(children, cols, n)[t]], cols).Some?
    ensures forall t, t' :: 0 <= t < t' < |FillStack(children, cols, n)| ==>
      FillStack(children, cols, n)[t] < FillStack(children, cols, n)[t']
  {
    if n > 0 {
      FillStackShape(children, cols, n - 1);
    }
  }


  /** A child is on the fill stack exactly when it is configured and its column fills. */
  lemma {:induction false} FillStackHas(children: seq<Child>, cols: seq<Column>, n: nat, i: nat)
    requires n <= |children| && i < |children|
    ensures i in FillStack(children, cols, n) <==>
      i < n && ConfigIndex(children[i], cols).Some? && Fills(cols[ConfigIndex(children[i], cols).value])
    ensures forall t :: 0 <= t < |FillStack(children, cols, n)| ==> FillStack(children, cols, n)[t] < n
  {
    if n > 0 {
      FillStackHas(children, cols, n - 1, i);
    }
  }

  lemma DivTimes(x: real, n: nat)
    requires n > 0
    ensures x / (n as real) * (n as real) == x
  {
  }

  // ---------------------------------------------------------------------
  // Operations on the view

  /** changeLayout; `bySignal` is whether a whenChanged signal invoked it (sender() is set). */
  function AfterChangeLayout(m: ViewModel, bySignal: bool, width: real, spacing: real): ViewModel
  {
    var na := FirstWhen(m.layouts);
    if na == m.active then m
    else
      var m1 := AfterUpdateLayout(m.(active := na));
      if bySignal then AfterRecalculate(m1, RecalculateAll, width, spacing) else m1
  }

  /** SplitViewAttached::resize for child i: resize its column, and recalculate everything when it was accepted. */
  function AfterAttachedResize(m: ViewModel, i: nat, delta: real, width: real, spacing: real): ViewModel
    requires i < |m.children| && Config(m, i).Some?
  {
    var a := m.active.value;
    var k := Config(m, i).value;
    var c := m.layouts[a].columns[k];
    var m1 := m.(layouts := m.layouts[a := m.layouts[a].(columns := m.layouts[a].columns[k := AfterResize(c, delta)])]);
    if ResizeFits(c, delta) then AfterRecalculate(m1, RecalculateAll, width, spacing) else m1
  }

  /** changeLayout activates the first layout whose `when` holds; a second call changes nothing. */
  lemma ChangeLayoutRule(m: ViewModel, bySignal: bool, width: real, spacing: real)
    requires ViewValid(m)
    ensures AfterChangeLayout(m, bySignal, width, spacing).active == FirstWhen(m.layouts)
    ensures FirstWhen(m.layouts) == m.active ==> AfterChangeLayout(m, bySignal, width, spacing) == m
    ensures var r := AfterChangeLayout(m, bySignal, width, spacing);
      AfterChangeLayout(r, bySignal, width, spacing) == r
  {
    var na := FirstWhen(m.layouts);
    if na != m.active {
      var m1 := AfterUpdateLayout(m.(active := na));
      assert m1.layouts == m.layouts;
      if bySignal {
        var r := AfterRecalculate(m1, RecalculateAll, width, spacing);
        assert |r.layouts| == |m.layouts| && forall j :: 0 <= j < |m.layouts| ==> r.layouts[j].when == m.layouts[j].when;
        FirstWhenOfWhens(r.layouts, m.layouts);
      }
    }
  }

  /**
   * A resized column no longer fills: after an accepted resize of child i's
   * column the recalculation gives the child the new preferred width.
   */
  lemma ResizedColumnKeepsWidth(m: ViewModel, i: nat, delta: real, width: real, spacing: real)
    requires ViewValid(m) && i < |m.children| && Config(m, i).Some?
    requires ResizeFits(m.layouts[m.active.value].columns[i], delta)
    ensures var r := AfterAttachedResize(m, i, delta, width, spacing);
      var c := m.layouts[m.active.value].columns[i];
      r.layouts[m.active.value].columns[i].resized &&
      r.layouts[m.active.value].columns[i].preferredWidth == c.preferredWidth + delta &&
      (m.complete || m.dirty ==> r.children[i].implicitWidth == c.preferredWidth + delta)
  {
    var a := m.active.value;
    var c := m.layouts[a].columns[i];
    var m1 := m.(layouts := m.layouts[a := m.layouts[a].(columns := m.layouts[a].columns[i := AfterResize(c, delta)])]);
    assert ViewValid(m1) by {
      assert Numbered(m1.layouts[a]);
    }
    assert Config(m1, i) == Some(i);
    if m.complete || m.dirty {
      RecalculateShares(m1, width, spacing, i);
    }
  }

  // ---------------------------------------------------------------------
  // doPositioning

  function SumWidths(ws: seq<real>): real
  {
    if |ws| == 0 then 0.0 else SumWidths(ws[..|ws| - 1]) + ws[|ws| - 1]
  }

  /** The left edge of item i laid out from 0 with the widths and spacing before it. */
  function Offset(ws: seq<real>, spacing: real, i: nat): real
    requires i <= |ws|
  {
    SumWidths(ws[..i]) + (i as real) * spacing
  }

  /** Each item starts where the previous one ends plus the spacing. */
  lemma OffsetStep(ws: seq<real>, spacing: real, i: nat)
    requires i < |ws|
    ensures Offset(ws, spacing, i + 1) == Offset(ws, spacing, i) + ws[i] + spacing
  {
    assert ws[..i + 1][..i] == ws[..i];
  }

  /** The content width: the accumulated offset, less the trailing spacing unless it is zero. */
  function ContentWidth(ws: seq<real>, spacing: real): real
  {
    var h := Offset(ws, spacing, |ws|);
    if h != 0.0 then h - spacing else h
  }

  /** Laid out left to right, the content ends at the right edge of the last item. */
  lemma ContentEndsAtLastItem(ws: seq<real>, spacing: real)
    requires |ws| > 0 && Offset(ws, spacing, |ws|) != 0.0
    ensures ContentWidth(ws, spacing) == Offset(ws, spacing, |ws| - 1) + ws[|ws| - 1]
  {
    OffsetStep(ws, spacing, |ws| - 1);
  }

  /**
   * doPositioning's item placement for the positioned items' widths: left to
   * right from 0, or mirrored from the end (the view's width when it is set,
   * the content width otherwise).
   */
  method PositionItems(ws: seq<real>, spacing: real, mirror: bool, widthValid: bool, width: real)
    returns (xs: seq<real>, contentWidth: real)
    ensures |xs| == |ws| && contentWidth == ContentWidth(ws, spacing)
    ensures !mirror ==> forall i :: 0 <= i < |ws| ==> xs[i] == Offset(ws, spacing, i)
    ensures mirror ==> forall i :: 0 <= i < |ws| ==>
      xs[i] == (if widthValid then width else contentWidth) - Offset(ws, spacing, i) - ws[i]
  {
    var hoffset := 0.0;
    var hoffsets: seq<real> := [];
    var ii := 0;
    while ii < |ws|
      invariant 0 <= ii <= |ws| && |hoffsets| == ii
      invariant hoffset == Offset(ws, spacing, ii)
      invariant forall j :: 0 <= j < ii ==> hoffsets[j] == Offset(ws, spacing, j)
    {
      hoffsets := hoffsets + [hoffset];
      OffsetStep(ws, spacing, ii);
      hoffset := hoffset + ws[ii];
      hoffset := hoffset + spacing;
      ii := ii + 1;
    }
    if hoffset != 0.0 {
      hoffset := hoffset - spacing;
    }
    contentWidth := hoffset;
    if !mirror {
      xs := hoffsets;
      return;
    }
    var end := if !widthValid then contentWidth else width;
    xs := [];
    ii := 0;
    while ii < |ws|
      invariant 0 <= ii <= |ws| && |xs| == ii
      invariant forall j :: 0 <= j < ii ==> xs[j] == end - Offset(ws, spacing, j) - ws[j]
    {
      xs := xs + [end - hoffsets[ii] - ws[ii]];
      ii := ii + 1;
    }
  }

  // ---------------------------------------------------------------------
  // The view

  class SplitView {
    var layouts: seq<Layout>
    var active: Option<nat>
    var children: seq<Child>
    var dirty: bool
    var complete: bool

    function Model(): ViewModel
      reads this
    {
      ViewModel(layouts, active, children, dirty, complete)
    }

    predicate Valid()
      reads this
    {
      ViewValid(Model())
    }

    constructor ()
      ensures Valid() && Model() == ViewModel([], None, [], false, false)
    {
      layouts, active, children, dirty, complete := [], None, [], false, false;
    }

    /** data_Append of the view: an item gets attached properties configured with its position and the view. */
    method DataAppend(isItem: bool, visible: bool, implicitWidth: real)
      requires Valid()
      modifies this`children
      ensures Valid()
      ensures children == old(children) + (if isItem then [Child(true, |old(children)|, visible, implicitWidth)] else [])
    {
      if isItem {
        children := children + [Child(true, |children|, visible, implicitWidth)];
      }
    }

    /** layout_Append: a layout joins the list; it takes effect through changeLayout. */
    method LayoutAppend(when: bool)
      requires Valid()
      modifies this`layouts
      ensures Valid() && layouts == old(layouts) + [Layout(when, [])]
    {
      layouts := layouts + [Layout(when, [])];
    }

    /** layout_Count. */
    method LayoutCount() returns (n: nat)
      ensures n == |layouts|
    {
      n := |layouts|;
    }

    /** layout_At. */
    method LayoutAt(index: nat) returns (l: Layout)
      requires index < |layouts|
      ensures l == layouts[index]
    {
      l := layouts[index];
    }

    /** layout_Clear: the list empties and there is no active layout any more. */
    method LayoutClear()
      requires Valid()
      modifies this`layouts, this`active
      ensures Valid() && layouts == [] && active == None
    {
      layouts := [];
      active := None;
    }

    /** SplitViewLayoutPrivate::data_Append on layout li. */
    method ColumnAppend(li: nat, c: Column)
      requires Valid() && li < |layouts|
      modifies this`layouts
      ensures Valid() && layouts == old(layouts)[li := ColumnAppended(old(layouts)[li], c)]
    {
      ColumnAppendedNumbered(layouts[li], c);
      layouts := layouts[li := ColumnAppended(layouts[li], c)];
    }

    /** SplitViewLayoutPrivate::data_Count. */
    method ColumnCount(li: nat) returns (n: nat)
      requires li < |layouts|
      ensures n == |layouts[li].columns|
    {
      n := |layouts[li].columns|;
    }

    /** SplitViewLayoutPrivate::data_At. */
    method ColumnAt(li: nat, index: nat) returns (c: Column)
      requires li < |layouts| && index < |layouts[li].columns|
      ensures c == layouts[li].columns[index]
    {
      c := layouts[li].columns[index];
    }

    /** SplitViewLayoutPrivate::data_Clear on layout li. */
    method ColumnClear(li: nat)
      requires Valid() && li < |layouts|
      modifies this`layouts
      ensures Valid() && layouts == old(layouts)[li := old(layouts)[li].(columns := [])]
    {
      layouts := layouts[li := layouts[li].(columns := [])];
    }

    /** updateLayout. */
    method UpdateLayout()
      requires Valid()
      modifies this`children, this`dirty
      ensures Valid() && Model() == AfterUpdateLayout(old(Model()))
    {
      ghost var m := Model();
      var i := 0;
      while i < |children|
        invariant 0 <= i <= |children| == |m.children|
        invariant layouts == m.layouts && active == m.active && complete == m.complete
        invariant forall j :: 0 <= j < i ==> children[j] == m.children[j].(visible := Visible(m, j))
        invariant forall j :: i <= j < |children| ==> children[j] == m.children[j]
        invariant dirty == (m.dirty || exists j :: 0 <= j < i && m.children[j].visible != Visible(m, j))
      {
        var visible := true;
        var config := ConfigIndex(children[i], ActiveColumns(Model()));
        assert config == Config(m, i);
        if config.None? {
          visible := false;
        } else {
          var cols := ActiveColumns(Model());
          visible := active.Some? && cols[config.value].column < |cols|;
        }
        dirty := dirty || (children[i].visible != visible);
        children := children[i := children[i].(visible := visible)];
        i := i + 1;
      }
      assert children == AfterUpdateLayout(m).children;
    }

    /** changeLayout; `bySignal` is whether a whenChanged signal invoked it. */
    method ChangeLayout(bySignal: bool, width: real, spacing: real)
      requires Valid()
      modifies this`active, this`layouts, this`children, this`dirty
      ensures Valid() && Model() == AfterChangeLayout(old(Model()), bySignal, width, spacing)
    {
      var newActive: Option<nat> := None;
      var i := 0;
      while i < |layouts|
        invariant 0 <= i <= |layouts|
        invariant forall j :: 0 <= j < i ==> !layouts[j].when
        invariant newActive.Some? ==> newActive == Some(i) && i < |layouts| && layouts[i].when
      {
        if layouts[i].when {
          newActive := Some(i);
          break;
        }
        i := i + 1;
      }
      assert newActive == FirstWhen(layouts) by {
        var f := FirstWhen(layouts);
        if f.Some? && newActive.Some? {
          assert !(f.value < newActive.value) && !(newActive.value < f.value);
        }
      }
      if newActive == active {
        return;
      }
      active := newActive;
      UpdateLayout();
      if bySignal {
        RecalculateWidths(RecalculateAll, width, spacing);
      }
    }

    /** The whenChanged signal of layout li. */
    method SetWhen(li: nat, when: bool, width: real, spacing: real)
      requires Valid() && li < |layouts|
      modifies this`active, this`layouts, this`children, this`dirty
      ensures Valid()
      ensures Model() == AfterChangeLayout(old(Model()).(layouts := old(layouts)[li := old(layouts)[li].(when := when)]),
                                           true, width, spacing)
    {
      layouts := layouts[li := layouts[li].(when := when)];
      ChangeLayout(true, width, spacing);
    }

    /** componentComplete: changeLayout outside any signal, then the view is complete. */
    method ComponentComplete(width: real, spacing: real)
      requires Valid()
      modifies this
      ensures Valid() && Model() == AfterChangeLayout(old(Model()), false, width, spacing).(complete := true)
    {
      ChangeLayout(false, width, spacing);
      complete := true;
    }

    /** recalculateWidths. */
    method RecalculateWidths(op: Operation, width: real, spacing: real)
      requires Valid()
      modifies this`layouts, this`children, this`dirty
      ensures Valid() && Model() == AfterRecalculate(old(Model()), op, width, spacing)
    {
      RecalculateFrame(Model(), op, width, spacing);
      if active.None? || (!complete && !dirty) {
        return;
      }
      ghost var m := Model();
      var a := active.value;
      var cols := layouts[a].columns;
      var fillStack, fillWidth := StackFillColumns(op, cols, FillStart(width, spacing, |cols|));
      ghost var p := Pass(children, fillStack, fillWidth);
      assert p == ViewPass(m, op, width, spacing);
      if |fillStack| > 0 && op.calculateFillWidth {
        FirstPassAccumulates(m.children, cols, op, |m.children|, FillStart(width, spacing, |cols|));
        FillStackShape(m.children, cols, |m.children|);
        FirstPassFrame(m.children, cols, op, |m.children|, FillStart(width, spacing, |cols|));
        fillWidth := fillWidth / (|fillStack| as real);
        assert fillWidth == Share(p);
        ShareFillWidth(a, fillStack, fillWidth);
        assert children == SecondPass(Widths(p.children, cols), p.stack, Share(p), |p.stack|).children;
      }
      dirty := false;
    }

    /** recalculateWidths' first loop: stack the filling children, size the others and take their widths off fillWidth. */
    method StackFillColumns(op: Operation, cols: seq<Column>, fw: real) returns (fillStack: seq<nat>, fillWidth: real)
      modifies this`children
      ensures Pass(children, fillStack, fillWidth) == FirstPass(old(children), cols, op, |old(children)|, fw)
    {
      ghost var ch0 := children;
      fillWidth := fw;
      fillStack := [];
      var i := 0;
      while i < |children|
        invariant 0 <= i <= |children| == |ch0|
        invariant Pass(children, fillStack, fillWidth) == FirstPass(ch0, cols, op, i, fw)
      {
        FirstPassFrame(ch0, cols, op, i, fw);
        var config := ConfigIndex(children[i], cols);
        assert config == ConfigIndex(ch0[i], cols);
        if config.Some? {
          var c := cols[config.value];
          if c.fillWidth && !c.resized {
            if op.calculateFillWidth {
              fillStack := fillStack + [i];
            }
          } else {
            if op.setPreferredSize {
              children := children[i := children[i].(implicitWidth := c.preferredWidth)];
            }
            if op.calculateFillWidth {
              fillWidth := fillWidth - c.preferredWidth;
            }
          }
        }
        i := i + 1;
      }
    }

    /** recalculateWidths' second loop: offer the share to each stacked child of layout a's columns. */
    method ShareFillWidth(a: nat, stack: seq<nat>, share: real)
      requires a < |layouts| && StackOf(Widths(children, layouts[a].columns), stack)
      modifies this`children, this`layouts
      ensures |layouts| == |old(layouts)|
      ensures layouts == old(layouts)[a := old(layouts)[a].(columns := layouts[a].columns)]
      ensures Widths(children, layouts[a].columns) == SecondPass(Widths(old(children), old(layouts)[a].columns), stack, share, |stack|)
    {
      ghost var w0 := Widths(children, layouts[a].columns);
      ghost var l0 := layouts;
      var t := 0;
      while t < |stack|
        invariant 0 <= t <= |stack| && |layouts| == |l0|
        invariant layouts == l0[a := l0[a].(columns := layouts[a].columns)]
        invariant Widths(children, layouts[a].columns) == SecondPass(w0, stack, share, t)
      {
        var child := stack[t];
        SecondPassFrame(w0, stack, share, t);
        ghost var w := Widths(children, layouts[a].columns);
        var k := children[child].column;
        var c := layouts[a].columns[k];
        if share >= c.minimumWidth && share <= c.maximumWidth {
          children := children[child := children[child].(implicitWidth := share)];
          layouts := layouts[a := layouts[a].(columns := layouts[a].columns[k := c.(preferredWidth := share)])];
        }
        assert Widths(children, layouts[a].columns) == ApplyShare(w, child, share);
        t := t + 1;
      }
    }

    /** SplitViewAttached::resize for child i; the source dereferences the configuration unchecked, so it must exist. */
    method AttachedResize(i: nat, delta: real, width: real, spacing: real)
      requires Valid() && i < |children| && Config(Model(), i).Some?
      modifies this`layouts, this`children, this`dirty
      ensures Valid() && Model() == AfterAttachedResize(old(Model()), i, delta, width, spacing)
    {
      var a := active.value;
      var k := children[i].column;
      var c := layouts[a].columns[k];
      var accepted := ResizeFits(c, delta);
      layouts := layouts[a := layouts[a].(columns := layouts[a].columns[k := AfterResize(c, delta)])];
      assert Numbered(layouts[a]);
      if accepted {
        RecalculateWidths(RecalculateAll, width, spacing);
      }
    }

    /** geometryChanged: a change of width recalculates the fill widths only. */
    method GeometryChanged(oldWidth: real, newWidth: real, spacing: real)
      requires Valid()
      modifies this`layouts, this`children, this`dirty
      ensures Valid()
      ensures Model() == if newWidth != oldWidth then AfterRecalculate(old(Model()), CalculateFillWidth, newWidth, spacing)
                         else old(Model())
    {
      if newWidth != oldWidth {
        RecalculateWidths(CalculateFillWidth, newWidth, spacing);
      }
    }

    /** doPositioning: recalculate everything, then place the positioned items of widths ws. */
    method DoPositioning(width: real, spacing: real, ws: seq<real>, mirror: bool, widthValid: bool)
      returns (xs: seq<real>, contentWidth: real)
      requires Valid()
      modifies this`layouts, this`children, this`dirty
      ensures Valid() && Model() == AfterRecalculate(old(Model()), RecalculateAll, width, spacing)
      ensures |xs| == |ws| && contentWidth == ContentWidth(ws, spacing)
      ensures !mirror ==> forall i :: 0 <= i < |ws| ==> xs[i] == Offset(ws, spacing, i)
      ensures mirror ==> forall i :: 0 <= i < |ws| ==>
        xs[i] == (if widthValid then width else contentWidth) - Offset(ws, spacing, i) - ws[i]
    {
      RecalculateWidths(RecalculateAll, width, spacing);
      xs, contentWidth := PositionItems(ws, spacing, mirror, widthValid, width);
    }
  }
}
