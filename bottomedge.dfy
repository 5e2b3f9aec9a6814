// BottomEdge (ucbottomedge.cpp): the bottom edge panel's ranges (the
// sections the drag progress walks through), its reveal/commit state, the
// commit point and the commit and collapse operations that finish when the
// panel animation stops.
module BottomEdge {
  import opened Common
  import MathUtils

  /** A range object: the one built by createDefaultRanges, or one declared in QML. */
  datatype RangeId = DefaultRange(n: nat) | UserRange(n: nat)

  datatype Range = Range(id: RangeId, from: real, to: real)

  /** UCBottomEdge::State; the order Hidden < Revealed < Committed matters. */
  datatype EdgeState = Hidden | Revealed | Committed

  /** The status values ucbottomedge.cpp uses. */
  datatype Status = Idle | Committing | Collapsing

  /** The slot connected to the panel animation's runningChanged signal. */
  datatype Completion = CommitDone | CollapseDone

  type HintId = nat

  datatype Event =
    | StateChanged(state: EdgeState) | ConsumeMouse(consume: bool)
    | ActiveRangeChanged | RangeEntered(entered: RangeId) | RangeExited(exited: RangeId)
    | HintDeleted(hint: HintId) | HintChanged | CommitPointChanged | RangeToWritten(written: RangeId)
    | CommitStarted | CommitCompleted | CollapseStarted | CollapseCompleted

  /**
   * The range bookkeeping: the list, defaultRangesReset, activeRange, the
   * default ranges whose `to` a commitPointChanged handler writes (one handler
   * per createDefaultRanges call, never disconnected), the ranges deleted so
   * far, and how many default ranges were created.
   */
  datatype Ranges = Ranges(list: seq<Range>, reset: bool, active: Option<RangeId>,
                           links: seq<nat>, deleted: set<RangeId>, created: nat)

  /** state, status, commitPoint, hint, the panel's y and the connected completion slots in order. */
  datatype Edge = Edge(state: EdgeState, status: Status, commitPoint: real, hint: Option<HintId>,
                       panelY: real, pending: seq<Completion>)

  datatype EdgeModel = EdgeModel(ranges: Ranges, edge: Edge, events: seq<Event>)

  /** The panel: its height (the BottomEdge's height) and whether it has a panelAnimation. */
  datatype Panel = Panel(height: real, animated: bool)

  const DefaultFrom: real := 0.33
  const DefaultTo: real := 1.0

  /** UCBottomEdgeRange::dragInSection is not part of this model: a range holds the closed interval [from, to]. */
  predicate InSection(r: Range, p: real)
  {
    r.from <= p <= r.to
  }

  function Ids(list: seq<Range>): set<RangeId>
  {
    set i | 0 <= i < |list| :: list[i].id
  }

  // ---------------------------------------------------------------------
  // Ranges

  /** createDefaultRanges: one range from 0.33 to 1.0, whose top follows later commit point changes. */
  function CreateDefaultRanges(rs: Ranges): (r: Ranges)
    ensures r.list == rs.list + [Range(DefaultRange(rs.created), DefaultFrom, DefaultTo)]
    ensures r.links == rs.links + [rs.created] && r.created == rs.created + 1
  {
    rs.(list := rs.list + [Range(DefaultRange(rs.created), DefaultFrom, DefaultTo)],
        links := rs.links + [rs.created], created := rs.created + 1)
  }

  /** appendRange: the first append deletes the default ranges; every append adds at the end. */
  function AfterAppendRange(rs: Ranges, r: Range): Ranges
  {
    var base := if !rs.reset then rs.(reset := true, deleted := rs.deleted + Ids(rs.list), list := []) else rs;
    base.(list := base.list + [r])
  }

  /** clearRanges: only after a custom range was appended; `destroy` deletes the dropped ranges. */
  function AfterClearRanges(rs: Ranges, destroy: bool): Ranges
  {
    if !rs.reset then rs
    else
      var d := if destroy then rs.deleted + Ids(rs.list) else rs.deleted;
      CreateDefaultRanges(rs.(list := [], reset := false, deleted := d))
  }

  /** Every default range in the list is written by a commitPointChanged handler; ids below `created`. */
  predicate RangesValid(rs: Ranges)
  {
    (forall i :: 0 <= i < |rs.list| && rs.list[i].id.DefaultRange? ==> rs.list[i].id.n in rs.links) &&
    (forall k :: 0 <= k < |rs.links| ==> rs.links[k] < rs.created) &&
    (!rs.reset ==> forall i :: 0 <= i < |rs.list| ==> rs.list[i].id.DefaultRange?) &&
    (forall i :: 0 <= i < |rs.list| && rs.list[i].id.DefaultRange? ==> rs.list[i].id !in rs.deleted) &&
    (forall d :: d in rs.deleted && d.DefaultRange? ==> d.n < rs.created)
  }

  const InitialRanges := CreateDefaultRanges(Ranges([], false, None, [], {}, 0))

  /** Before any custom range, the list is the single default range. */
  lemma InitialRangesShape()
    ensures InitialRanges.list == [Range(DefaultRange(0), 0.33, 1.0)] && !InitialRanges.reset
    ensures RangesValid(InitialRanges)
  {
  }

  /** The first appendRange discards the default ranges and deletes them; later ones accumulate in order. */
  lemma AppendRangeRule(rs: Ranges, r: Range)
    ensures !rs.reset ==> AfterAppendRange(rs, r).list == [r] && rs.deleted + Ids(rs.list) <= AfterAppendRange(rs, r).deleted
    ensures rs.reset ==> AfterAppendRange(rs, r).list == rs.list + [r] && AfterAppendRange(rs, r).deleted == rs.deleted
    ensures AfterAppendRange(rs, r).reset && AfterAppendRange(rs, r).active == rs.active
  {
  }

  /** clearRanges is a no-op until a custom range was appended, and then restores one fresh default range. */
  lemma ClearRangesRule(rs: Ranges, destroy: bool)
    ensures !rs.reset ==> AfterClearRanges(rs, destroy) == rs
    ensures rs.reset ==> var c := AfterClearRanges(rs, destroy);
      c.list == [Range(DefaultRange(rs.created), DefaultFrom, DefaultTo)] && !c.reset &&
      c.active == rs.active && (destroy ==> Ids(rs.list) <= c.deleted)
  {
  }

  /** Appending and clearing keep the range bookkeeping consistent. */
  lemma {:induction false} RangeOperationsValid(rs: Ranges, r: Range, destroy: bool)
    requires RangesValid(rs) && r.id.UserRange?
    ensures RangesValid(AfterAppendRange(rs, r))
    ensures RangesValid(AfterClearRanges(rs, destroy))
  {
    var a := AfterAppendRange(rs, r);
    if !rs.reset {
      assert a.list == [r];
    } else {
      assert forall i :: 0 <= i < |rs.list| ==> a.list[i] == rs.list[i];
    }
    if rs.reset {
      var c := AfterClearRanges(rs, destroy);
      assert c.list == [Range(DefaultRange(rs.created), DefaultFrom, DefaultTo)];
      forall i | 0 <= i < |rs.list| && rs.list[i].id.DefaultRange? ensures rs.list[i].id.n < rs.created {
        var k :| 0 <= k < |rs.links| && rs.links[k] == rs.list[i].id.n;
      }
    }
  }

  // ---------------------------------------------------------------------
  // Walking the drag progress through the ranges

  datatype Scan = Scan(active: Option<RangeId>, events: seq<Event>)

  /**
   * The foreach of updateProgressionStates: a range containing the progress
   * is entered when none is active (and the walk stops); the active range is
   * exited once a range with its identity does not contain the progress.
   */
  function ScanRanges(list: seq<Range>, active: Option<RangeId>, p: real): Scan
    decreases |list|
  {
    if list == [] then Scan(active, [])
    else if InSection(list[0], p) then
      if active.None? then Scan(Some(list[0].id), [RangeEntered(list[0].id), ActiveRangeChanged])
      else ScanRanges(list[1..], active, p)
    else if active == Some(list[0].id) then
      var rest := ScanRanges(list[1..], None, p);
      Scan(rest.active, [RangeExited(list[0].id), ActiveRangeChanged] + rest.events)
    else ScanRanges(list[1..], active, p)
  }

  function CountEntered(events: seq<Event>): nat
  {
    if events == [] then 0 else (if events[0].RangeEntered? then 1 else 0) + CountEntered(events[1..])
  }

  lemma {:induction false} CountEnteredAppend(a: seq<Event>, b: seq<Event>)
    ensures CountEntered(a + b) == CountEntered(a) + CountEntered(b)
  {
    if a != [] {
      assert (a + b)[1..] == a[1..] + b;
      CountEnteredAppend(a[1..], b);
    } else {
      assert a + b == b;
    }
  }

  /** At most one range is entered per walk, and only while no range is active. */
  lemma {:induction false} ScanEntersAtMostOnce(list: seq<Range>, active: Option<RangeId>, p: real)
    ensures CountEntered(ScanRanges(list, active, p).events) <= 1
    ensures active.Some? && CountEntered(ScanRanges(list, active, p).events) == 1 ==>
      RangeExited(active.value) in ScanRanges(list, active, p).events
    decreases |list|
  {
    if list != [] {
      if InSection(list[0], p) {
        if active.Some? {
          ScanEntersAtMostOnce(list[1..], active, p);
        } else {
          var e := [RangeEntered(list[0].id), ActiveRangeChanged];
          assert e[1..][1..] == [];
          assert CountEntered(e) == 1 + CountEntered(e[1..]);
        }
      } else if active == Some(list[0].id) {
        var rest := ScanRanges(list[1..], None, p);
        ScanEntersAtMostOnce(list[1..], None, p);
        var e := [RangeExited(list[0].id), ActiveRangeChanged];
        assert e[1..][1..] == [];
        assert CountEntered(e) == CountEntered(e[1..]);
        CountEnteredAppend([RangeExited(list[0].id), ActiveRangeChanged], rest.events);
      } else {
        ScanEntersAtMostOnce(list[1..], active, p);
      }
    }
  }

  /** A newly active range was entered and contains the progress. */
  lemma {:induction false} ScanNewActiveContains(list: seq<Range>, active: Option<RangeId>, p: real)
    ensures var r := ScanRanges(list, active, p);
      r.active.Some? && r.active != active ==>
        RangeEntered(r.active.value) in r.events &&
        exists i :: 0 <= i < |list| && list[i].id == r.active.value && InSection(list[i], p)
    decreases |list|
  {
    if list != [] {
      var r := ScanRanges(list, active, p);
      if InSection(list[0], p) {
        if active.Some? {
          ScanNewActiveContains(list[1..], active, p);
          if r.active.Some? && r.active != active {
            var i :| 0 <= i < |list[1..]| && list[1..][i].id == r.active.value && InSection(list[1..][i], p);
            assert list[i + 1] == list[1..][i];
          }
        }
      } else if active == Some(list[0].id) {
        ScanNewActiveContains(list[1..], None, p);
        var rest := ScanRanges(list[1..], None, p);
        if rest.active.Some? {
          var i :| 0 <= i < |list[1..]| && list[1..][i].id == rest.active.value && InSection(list[1..][i], p);
          assert list[i + 1] == list[1..][i];
        }
      } else {
        ScanNewActiveContains(list[1..], active, p);
        if r.active.Some? && r.active != active {
          var i :| 0 <= i < |list[1..]| && list[1..][i].id == r.active.value && InSection(list[1..][i], p);
          assert list[i + 1] == list[1..][i];
        }
      }
    }
  }

  /** With no active range, the walk enters the first range that contains the progress. */
  lemma {:induction false} ScanEntersFirst(list: seq<Range>, p: real, k: nat)
    requires k < |list| && InSection(list[k], p)
    requires forall i :: 0 <= i < k ==> !InSection(list[i], p)
    ensures ScanRanges(list, None, p) == Scan(Some(list[k].id), [RangeEntered(list[k].id), ActiveRangeChanged])
    decreases k
  {
    if k > 0 {
      ScanEntersFirst(list[1..], p, k - 1);
    }
  }

  /** An active range that no range with its identity contains any more is exited. */
  lemma {:induction false} ScanExitsStale(list: seq<Range>, a: RangeId, p: real, k: nat)
    requires k < |list| && list[k].id == a
    requires forall i :: 0 <= i < |list| && list[i].id == a ==> !InSection(list[i], p)
    ensures RangeExited(a) in ScanRanges(list, Some(a), p).events
    ensures ScanRanges(list, Some(a), p).active != Some(a)
    decreases k
  {
    if list[0].id == a {
      var rest := ScanRanges(list[1..], None, p);
      ScanNeverEnters(list[1..], a, p);
    } else {
      assert !(InSection(list[0], p)) || list[0].id != a;
      if k > 0 {
        forall i | 0 <= i < |list[1..]| && list[1..][i].id == a ensures !InSection(list[1..][i], p) {
          assert list[1..][i] == list[i + 1];
        }
        ScanExitsStale(list[1..], a, p, k - 1);
      }
    }
  }

  /** A range none of whose copies contains the progress is never made active. */
  lemma {:induction false} ScanNeverEnters(list: seq<Range>, a: RangeId, p: real)
    requires forall i :: 0 <= i < |list| && list[i].id == a ==> !InSection(list[i], p)
    ensures ScanRanges(list, None, p).active != Some(a)
    decreases |list|
  {
    if list != [] && !InSection(list[0], p) {
      forall i | 0 <= i < |list[1..]| && list[1..][i].id == a ensures !InSection(list[1..][i], p) {
        assert list[1..][i] == list[i + 1];
      }
      ScanNeverEnters(list[1..], a, p);
    }
  }

  /** An active range that is no longer in the list (clearRanges keeps activeRange) blocks every entry. */
  lemma {:induction false} ScanStaleActiveBlocks(list: seq<Range>, a: RangeId, p: real)
    requires a !in Ids(list)
    ensures ScanRanges(list, Some(a), p) == Scan(Some(a), [])
    decreases |list|
  {
    if list != [] {
      assert list[0].id in Ids(list);
      assert Ids(list[1..]) <= Ids(list) by {
        forall i | 0 <= i < |list[1..]| ensures list[1..][i].id in Ids(list) {
          assert list[1..][i] == list[i + 1];
        }
      }
      ScanStaleActiveBlocks(list[1..], a, p);
    }
  }

  // ---------------------------------------------------------------------
  // Edge operations

  function StateRank(s: EdgeState): nat
  {
    match s
    case Hidden => 0
    case Revealed => 1
    case Committed => 2
  }

  /** setState: only on a change; the style panel consumes the mouse in every state but Hidden. */
  function AfterSetState(m: EdgeModel, st: EdgeState): EdgeModel
  {
    if st == m.edge.state then m
    else m.(edge := m.edge.(state := st), events := m.events + [ConsumeMouse(st != Hidden), StateChanged(st)])
  }

  /** updateProgressionStates for the drag progress `p`; `locked` is isLocked(). */
  function AfterUpdateProgressionStates(m: EdgeModel, locked: bool, p: real): EdgeModel
  {
    if locked then m
    else
      var m1 := if p > 0.0 && m.ranges.active.None? then AfterSetState(m, Revealed) else m;
      var sc := ScanRanges(m1.ranges.list, m1.ranges.active, p);
      m1.(ranges := m1.ranges.(active := sc.active), events := m1.events + sc.events)
  }

  /** setHint: refused for the same hint and once the content is revealed; the old hint is deleted. */
  function AfterSetHint(m: EdgeModel, h: Option<HintId>): EdgeModel
  {
    if h == m.edge.hint || StateRank(m.edge.state) >= StateRank(Revealed) then m
    else
      m.(edge := m.edge.(hint := h),
         events := m.events + (if m.edge.hint.Some? then [HintDeleted(m.edge.hint.value)] else []) + [HintChanged])
  }

  /** positionPanel: the panel's y for a position given as a fraction of the height. */
  function PanelY(height: real, position: real): real
  {
    height - height * position
  }

  /** dragProgress. */
  function DragProgress(height: real, y: real): real
    requires height != 0.0
  {
    1.0 - y / height
  }

  /** Positioning the panel at p and reading the drag progress back gives p. */
  lemma PositionRoundTrip(height: real, p: real)
    requires height != 0.0
    ensures DragProgress(height, PanelY(height, p)) == p
  {
    var y := PanelY(height, p);
    assert y == height * (1.0 - p);
    MathUtils.DivCancel(height, 1.0 - p);
  }

  /** The commit point written by setCommitPoint lies in [0, 1] and differs from the current one. */
  predicate AcceptsCommitPoint(m: EdgeModel, point: real)
  {
    point != m.edge.commitPoint && 0.0 <= point <= 1.0
  }

  /** Writes of the commitPointChanged handlers, in connection order. */
  function LinkWrites(links: seq<nat>): seq<Event>
    ensures |LinkWrites(links)| == |links|
  {
    if links == [] then [] else [RangeToWritten(DefaultRange(links[0]))] + LinkWrites(links[1..])
  }

  /** The handlers whose default range still exists. */
  function LiveLinks(links: seq<nat>, deleted: set<RangeId>): (r: seq<nat>)
    ensures forall k :: 0 <= k < |r| ==> DefaultRange(r[k]) !in deleted && r[k] in links
  {
    if links == [] then []
    else (if DefaultRange(links[0]) in deleted then [] else [links[0]]) + LiveLinks(links[1..], deleted)
  }

  /** Every default range written by a handler gets the new commit point as its top. */
  function FollowCommitPoint(list: seq<Range>, links: seq<nat>, point: real): (r: seq<Range>)
    ensures |r| == |list|
    ensures forall i :: 0 <= i < |list| ==> r[i].id == list[i].id && r[i].from == list[i].from
    ensures forall i :: 0 <= i < |list| ==>
      r[i].to == (if list[i].id.DefaultRange? && list[i].id.n in links then point else list[i].to)
  {
    seq(|list|, i requires 0 <= i < |list| =>
      if list[i].id.DefaultRange? && list[i].id.n in links then list[i].(to := point) else list[i])
  }

  /**
   * setCommitPoint as written: every commitPointChanged handler ever
   * connected writes its range, including ranges appendRange or
   * clearRanges(true) already deleted.
   */
  function SetCommitPointAsWritten(m: EdgeModel, point: real): EdgeModel
  {
    if !AcceptsCommitPoint(m, point) then m
    else
      m.(edge := m.edge.(commitPoint := point),
         ranges := m.ranges.(list := FollowCommitPoint(m.ranges.list, m.ranges.links, point)),
         events := m.events + [CommitPointChanged] + LinkWrites(m.ranges.links))
  }

  /** setCommitPoint with each handler tied to its range's lifetime: only live default ranges are written. */
  function AfterSetCommitPoint(m: EdgeModel, point: real): EdgeModel
  {
    if !AcceptsCommitPoint(m, point) then m
    else
      var live := LiveLinks(m.ranges.links, m.ranges.deleted);
      m.(edge := m.edge.(commitPoint := point),
         ranges := m.ranges.(list := FollowCommitPoint(m.ranges.list, live, point)),
         events := m.events + [CommitPointChanged] + LinkWrites(live))
  }

  lemma {:induction false} LinkWritesIn(links: seq<nat>, id: RangeId)
    ensures RangeToWritten(id) in LinkWrites(links) <==> id.DefaultRange? && id.n in links
  {
    if links != [] {
      LinkWritesIn(links[1..], id);
      assert links == [links[0]] + links[1..];
    }
  }

  lemma {:induction false} LiveLinksKeep(links: seq<nat>, deleted: set<RangeId>, n: nat)
    requires n in links && DefaultRange(n) !in deleted
    ensures n in LiveLinks(links, deleted)
  {
    if links[0] != n {
      LiveLinksKeep(links[1..], deleted, n);
    }
  }

  /** The refused commit points: the current one and anything outside [0, 1]. */
  lemma CommitPointGuard(m: EdgeModel, point: real)
    ensures !AcceptsCommitPoint(m, point) ==> AfterSetCommitPoint(m, point) == m
    ensures AcceptsCommitPoint(m, point) ==> AfterSetCommitPoint(m, point).edge.commitPoint == point
  {
  }

  /** After an accepted commit point, every default range in the list has it as its top; nothing deleted is written. */
  lemma CommitPointFollowed(m: EdgeModel, point: real)
    requires RangesValid(m.ranges) && AcceptsCommitPoint(m, point)
    ensures var t := AfterSetCommitPoint(m, point);
      (forall i :: 0 <= i < |t.ranges.list| && t.ranges.list[i].id.DefaultRange? ==> t.ranges.list[i].to == point) &&
      (forall i :: 0 <= i < |t.ranges.list| && t.ranges.list[i].id.UserRange? ==> t.ranges.list[i] == m.ranges.list[i]) &&
      (forall id :: RangeToWritten(id) in t.events[|m.events|..] ==> id !in m.ranges.deleted)
  {
    var live := LiveLinks(m.ranges.links, m.ranges.deleted);
    var t := AfterSetCommitPoint(m, point);
    forall i | 0 <= i < |m.ranges.list| && m.ranges.list[i].id.DefaultRange?
      ensures m.ranges.list[i].id.n in live
    {
      LiveLinksKeep(m.ranges.links, m.ranges.deleted, m.ranges.list[i].id.n);
    }
    assert t.events[|m.events|..] == [CommitPointChanged] + LinkWrites(live);
    forall id | RangeToWritten(id) in t.events[|m.events|..] ensures id !in m.ranges.deleted {
      LinkWritesIn(live, id);
    }
  }

  /**
   * As written, appending a range from QML deletes the default range, and a
   * later commit point change still writes the deleted range's `to`.
   */
  lemma AsWrittenWritesDeletedRange(m: EdgeModel, r: Range)
    requires m.ranges == InitialRanges && AcceptsCommitPoint(m, 0.5)
    ensures var a := m.(ranges := AfterAppendRange(m.ranges, r));
      var t := SetCommitPointAsWritten(a, 0.5);
      DefaultRange(0) in a.ranges.deleted && RangeToWritten(DefaultRange(0)) in t.events[|a.events|..]
  {
    var a := m.(ranges := AfterAppendRange(m.ranges, r));
    assert InitialRanges.list[0].id == DefaultRange(0);
    assert DefaultRange(0) in Ids(InitialRanges.list);
    assert a.ranges.links == [0];
    LinkWritesIn(a.ranges.links, DefaultRange(0));
    var t := SetCommitPointAsWritten(a, 0.5);
    assert t.events[|a.events|..] == [CommitPointChanged] + LinkWrites(a.ranges.links);
  }

  /** commit(): status Committing, the completion slot connected when animated, panel at the commit point. */
  function AfterCommit(pn: Panel, m: EdgeModel): EdgeModel
  {
    m.(edge := m.edge.(status := Committing, panelY := PanelY(pn.height, m.edge.commitPoint),
                       pending := m.edge.pending + (if pn.animated then [CommitDone] else [])),
       events := m.events + [CommitStarted])
  }

  /** collapse(): status Collapsing, the completion slot connected when animated, panel at the bottom. */
  function AfterCollapse(pn: Panel, m: EdgeModel): EdgeModel
  {
    m.(edge := m.edge.(status := Collapsing, panelY := PanelY(pn.height, 0.0),
                       pending := m.edge.pending + (if pn.animated then [CollapseDone] else [])),
       events := m.events + [CollapseStarted])
  }

  /** emitCommitCompleted(false) / emitCollapseCompleted(false). */
  function Complete(m: EdgeModel, c: Completion): EdgeModel
  {
    var m1 := AfterSetState(m, if c == CommitDone then Committed else Hidden);
    m1.(edge := m1.edge.(status := Idle), events := m1.events + [if c == CommitDone then CommitCompleted else CollapseCompleted])
  }

  function Without(cs: seq<Completion>, c: Completion): (r: seq<Completion>)
    ensures |r| <= |cs| && c !in r
    ensures forall x :: x in r ==> x in cs
  {
    if cs == [] then [] else (if cs[0] == c then [] else [cs[0]]) + Without(cs[1..], c)
  }

  /**
   * The animation stopped: the connected slots run in connection order; each
   * slot disconnects every copy of its own connection, so it runs once.
   */
  function RunCompletions(m: EdgeModel, cs: seq<Completion>): EdgeModel
    decreases |cs|
  {
    if cs == [] then m else RunCompletions(Complete(m, cs[0]), Without(cs[1..], cs[0]))
  }

  function AfterAnimationStopped(m: EdgeModel): EdgeModel
  {
    var m1 := RunCompletions(m, m.edge.pending);
    m1.(edge := m1.edge.(pending := []))
  }

  /** Commit completion sets Committed, collapse completion Hidden; both return the status to Idle. */
  lemma CompletionStates(m: EdgeModel, c: Completion)
    ensures Complete(m, c).edge.state == (if c == CommitDone then Committed else Hidden)
    ensures Complete(m, c).edge.status == Idle
    ensures Complete(m, c).edge.commitPoint == m.edge.commitPoint && Complete(m, c).ranges == m.ranges
  {
  }

  /** An animated commit, once its animation stops, leaves the content committed and the status idle. */
  lemma CommitThenStop(pn: Panel, m: EdgeModel)
    requires pn.animated && m.edge.pending == []
    ensures var t := AfterAnimationStopped(AfterCommit(pn, m));
      t.edge.state == Committed && t.edge.status == Idle && t.edge.pending == [] &&
      t.edge.panelY == PanelY(pn.height, m.edge.commitPoint)
  {
    var c := AfterCommit(pn, m);
    assert c.edge.pending == [CommitDone];
    assert Without([], CommitDone) == [];
    assert RunCompletions(c, [CommitDone]) == RunCompletions(Complete(c, CommitDone), []);
  }

  /** Two commits before the animation stops complete once, not twice. */
  lemma DoubleCommitCompletesOnce(pn: Panel, m: EdgeModel)
    requires pn.animated && m.edge.pending == []
    ensures var c := AfterCommit(pn, AfterCommit(pn, m));
      var t := AfterAnimationStopped(c);
      c.edge.pending == [CommitDone, CommitDone] &&
      t.edge.state == Committed && t.events == Complete(c, CommitDone).events
  {
    var c := AfterCommit(pn, AfterCommit(pn, m));
    assert c.edge.pending == [CommitDone, CommitDone];
    assert Without([CommitDone], CommitDone) == [];
    assert RunCompletions(c, [CommitDone, CommitDone]) == RunCompletions(Complete(c, CommitDone), []);
  }

  /** Without a panel animation nothing is connected, so a commit never completes. */
  lemma UnanimatedCommitPending(pn: Panel, m: EdgeModel)
    requires !pn.animated
    ensures AfterCommit(pn, m).edge.pending == m.edge.pending && AfterCommit(pn, m).edge.state == m.edge.state
  {
  }

  /** updateProgressionStates does nothing when locked, and reveals on a positive progress with no active range. */
  lemma ProgressionRules(m: EdgeModel, locked: bool, p: real)
    ensures locked ==> AfterUpdateProgressionStates(m, locked, p) == m
    ensures !locked && p > 0.0 && m.ranges.active.None? ==>
      AfterUpdateProgressionStates(m, locked, p).edge.state == Revealed
    ensures AfterUpdateProgressionStates(m, locked, p).ranges.list == m.ranges.list
  {
  }

  /** setHint is refused for the current hint and from Revealed on; setState on the current state is a no-op. */
  lemma HintAndStateGuards(m: EdgeModel, h: Option<HintId>)
    ensures h == m.edge.hint || m.edge.state != Hidden ==> AfterSetHint(m, h) == m
    ensures h != m.edge.hint && m.edge.state == Hidden ==> AfterSetHint(m, h).edge.hint == h
    ensures AfterSetState(m, m.edge.state) == m
  {
  }

  // ---------------------------------------------------------------------
  // The component

  class UCBottomEdge {
    const panel: Panel
    var ranges: Ranges
    var edge: Edge
    var events: seq<Event>

    function Model(): EdgeModel
      reads this
    {
      EdgeModel(ranges, edge, events)
    }

    /** The constructor's init() creates the default range; commitPoint 1.0, Hidden and Idle. */
    constructor (pn: Panel)
      ensures panel == pn && ranges == InitialRanges && events == []
      ensures edge == Edge(Hidden, Idle, 1.0, None, pn.height, [])
    {
      panel := pn;
      ranges := CreateDefaultRanges(Ranges([], false, None, [], {}, 0));
      edge := Edge(Hidden, Idle, 1.0, None, pn.height, []);
      events := [];
    }

    method AppendRange(r: Range)
      modifies this`ranges
      ensures ranges == AfterAppendRange(old(ranges), r)
    {
      if !ranges.reset {
        ranges := ranges.(reset := true, deleted := ranges.deleted + Ids(ranges.list), list := []);
      }
      ranges := ranges.(list := ranges.list + [r]);
    }

    method ClearRanges(destroy: bool)
      modifies this`ranges
      ensures ranges == AfterClearRanges(old(ranges), destroy)
    {
      if !ranges.reset {
        return;
      }
      if destroy {
        ranges := ranges.(deleted := ranges.deleted + Ids(ranges.list));
      }
      ranges := ranges.(list := [], reset := false);
      ranges := CreateDefaultRanges(ranges);
    }

    /** ranges_count. */
    method RangesCount() returns (n: nat)
      ensures n == |ranges.list|
    {
      n := |ranges.list|;
    }

    method SetState(st: EdgeState)
      modifies this`edge, this`events
      ensures Model() == AfterSetState(old(Model()), st)
    {
      if st == edge.state {
        return;
      }
      edge := edge.(state := st);
      events := events + [ConsumeMouse(st != Hidden), StateChanged(st)];
    }

    /** The foreach over the ranges with its break, kept as a loop. */
    method UpdateProgressionStates(locked: bool, p: real)
      modifies this`ranges, this`edge, this`events
      ensures Model() == AfterUpdateProgressionStates(old(Model()), locked, p)
    {
      if locked {
        return;
      }
      if p > 0.0 && ranges.active.None? {
        SetState(Revealed);
      }
      ghost var m1 := Model();
      var list := ranges.list;
      var i := 0;
      while i < |list|
        invariant 0 <= i <= |list| && list == ranges.list == m1.ranges.list && edge == m1.edge
        invariant var rest := ScanRanges(list[i..], ranges.active, p);
          var whole := ScanRanges(list, m1.ranges.active, p);
          rest.active == whole.active && events + rest.events == m1.events + whole.events
        invariant ranges == m1.ranges.(active := ranges.active)
        decreases |list| - i
      {
        var r := list[i];
        assert list[i..][1..] == list[i + 1..];
        if InSection(r, p) {
          if ranges.active.None? {
            ranges := ranges.(active := Some(r.id));
            events := events + [RangeEntered(r.id), ActiveRangeChanged];
            break;
          }
        } else if ranges.active == Some(r.id) {
          ranges := ranges.(active := None);
          events := events + [RangeExited(r.id), ActiveRangeChanged];
        }
        i := i + 1;
      }
      assert i == |list| ==> list[i..] == [];
    }

    method SetHint(h: Option<HintId>)
      modifies this`edge, this`events
      ensures Model() == AfterSetHint(old(Model()), h)
    {
      if h == edge.hint || StateRank(edge.state) >= StateRank(Revealed) {
        return;
      }
      if edge.hint.Some? {
        events := events + [HintDeleted(edge.hint.value)];
      }
      edge := edge.(hint := h);
      events := events + [HintChanged];
    }

    method SetCommitPoint(point: real)
      modifies this`ranges, this`edge, this`events
      ensures Model() == AfterSetCommitPoint(old(Model()), point)
    {
      if point == edge.commitPoint || point < 0.0 || point > 1.0 {
        return;
      }
      edge := edge.(commitPoint := point);
      events := events + [CommitPointChanged];
      var live := LiveLinks(ranges.links, ranges.deleted);
      ranges := ranges.(list := FollowCommitPoint(ranges.list, live, point));
      events := events + LinkWrites(live);
    }

    method Commit()
      modifies this`edge, this`events
      ensures Model() == AfterCommit(panel, old(Model()))
    {
      edge := edge.(status := Committing);
      events := events + [CommitStarted];
      if panel.animated {
        edge := edge.(pending := edge.pending + [CommitDone]);
      }
      edge := edge.(panelY := PanelY(panel.height, edge.commitPoint));
    }

    method Collapse()
      modifies this`edge, this`events
      ensures Model() == AfterCollapse(panel, old(Model()))
    {
      edge := edge.(status := Collapsing);
      events := events + [CollapseStarted];
      if panel.animated {
        edge := edge.(pending := edge.pending + [CollapseDone]);
      }
      edge := edge.(panelY := PanelY(panel.height, 0.0));
    }

    /** runningChanged(false) of the panel animation. */
    method AnimationStopped()
      modifies this`edge, this`events
      ensures Model() == AfterAnimationStopped(old(Model()))
    {
      var cs := edge.pending;
      ghost var m0 := Model();
      while cs != []
        invariant RunCompletions(Model(), cs) == RunCompletions(m0, m0.edge.pending) && ranges == m0.ranges
        decreases |cs|
      {
        var c := cs[0];
        SetState(if c == CommitDone then Committed else Hidden);
        edge := edge.(status := Idle);
        events := events + [if c == CommitDone then CommitCompleted else CollapseCompleted];
        cs := Without(cs[1..], c);
      }
      edge := edge.(pending := []);
    }
  }
}
