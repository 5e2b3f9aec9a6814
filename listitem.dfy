// ListItem (uclistitem.cpp): the divider's margins, and the press, tug,
// snap and rebound state machine of a list item whose content can be
// dragged sideways to reveal a leading or a trailing action panel.
module ListItem {
  import opened Common
  import MathUtils

  // ---------------------------------------------------------------------
  // Clamping the dragged content

  /** The CLAMP macro: MAX(min, MIN(v, max)), with the bounds swapped when min > max. */
  function ClampMacro(v: real, min: real, max: real): (r: real)
    ensures min <= max ==> min <= r <= max
    ensures max < min ==> max <= r <= min
    ensures (min <= v <= max || max <= v <= min) ==> r == v
  {
    if min <= max then (if min > (if v < max then v else max) then min else (if v < max then v else max))
    else (if max > (if v < min then v else min) then max else (if v < min then v else min))
  }

  /** The macro behaves exactly like clamp() of mathUtils.js. */
  lemma ClampMacroIsClamp(v: real, min: real, max: real)
    ensures ClampMacro(v, min, max) == MathUtils.Clamp(v, min, max)
  {
    if max < min {
      MathUtils.ClampSwap(v, min, max);
    }
  }

  /** Lower drag bound: the trailing panel may be pulled in from the right, plus the overshoot. */
  function MinX(trailingPanel: bool, trailingWidth: real, overshoot: real): real
  {
    if trailingPanel then -trailingWidth - overshoot else 0.0
  }

  /** Upper drag bound: the leading panel may be pulled in from the left, plus the overshoot. */
  function MaxX(leadingPanel: bool, leadingWidth: real, overshoot: real): real
  {
    if leadingPanel then leadingWidth + overshoot else 0.0
  }

  /**
   * clampX: x moved by dx and then clamped into [MinX, MaxX]. `overshoot`
   * is gu(overshootGU) and the widths are those of the panel items.
   */
  method ClampX(x: real, dx: real, leadingPanel: bool, leadingWidth: real,
                trailingPanel: bool, trailingWidth: real, overshoot: real) returns (nx: real)
    ensures var lo, hi := MinX(trailingPanel, trailingWidth, overshoot), MaxX(leadingPanel, leadingWidth, overshoot);
      (lo <= hi ==> lo <= nx <= hi) && (hi < lo ==> hi <= nx <= lo) &&
      ((lo <= x + dx <= hi || hi <= x + dx <= lo) ==> nx == x + dx)
    ensures !leadingPanel && !trailingPanel ==> nx == 0.0
    ensures !leadingPanel && overshoot >= 0.0 && trailingWidth >= 0.0 ==> nx <= 0.0
    ensures !trailingPanel && overshoot >= 0.0 && leadingWidth >= 0.0 ==> nx >= 0.0
    ensures nx == ClampMacro(x + dx, MinX(trailingPanel, trailingWidth, overshoot), MaxX(leadingPanel, leadingWidth, overshoot))
  {
    nx := x;
    nx := nx + dx;
    var min := MinX(trailingPanel, trailingWidth, overshoot);
    var max := MaxX(leadingPanel, leadingWidth, overshoot);
    nx := ClampMacro(nx, min, max);
  }

  // ---------------------------------------------------------------------
  // The divider

  datatype DividerEvent = VisibleChanged | LeftMarginChanged | RightMarginChanged | ItemUpdated

  class UCListItemDivider {
    var visible: bool
    var thickness: real
    var leftMargin: real
    var rightMargin: real
    /** m_leftMarginChanged / m_rightMarginChanged: the margin was set by the user. */
    var leftMarginSet: bool
    var rightMarginSet: bool
    /** m_listItem is set: init() has attached the divider to its list item. */
    var attached: bool
    var events: seq<DividerEvent>

    /**
     * The constructor ends by calling unitsChanged(); `dp2` is UCUnits::dp(2).
     * No list item is attached yet, so that call repaints nothing.
     */
    constructor (dp2: real)
      ensures visible && !leftMarginSet && !rightMarginSet && !attached
      ensures thickness == dp2 && leftMargin == dp2 && rightMargin == dp2
      ensures events == []
    {
      attached := false;
      visible := true;
      leftMarginSet := false;
      rightMarginSet := false;
      thickness := 0.0;
      leftMargin := 0.0;
      rightMargin := 0.0;
      events := [];
      new;
      UnitsChanged(dp2);
    }

    /** init(): the divider is attached to its list item, which it repaints from then on. */
    method Init()
      modifies this`attached
      ensures attached
    {
      attached := true;
    }

    /**
     * Grid unit change: thickness always follows dp(2), margins only while the
     * user has not set them; the list item is repainted once one is attached.
     */
    method UnitsChanged(dp2: real)
      modifies this`thickness, this`leftMargin, this`rightMargin, this`events
      ensures thickness == dp2
      ensures leftMargin == if leftMarginSet then old(leftMargin) else dp2
      ensures rightMargin == if rightMarginSet then old(rightMargin) else dp2
      ensures events == old(events) + (if attached then [ItemUpdated] else [])
    {
      thickness := dp2;
      if !leftMarginSet {
        leftMargin := dp2;
      }
      if !rightMarginSet {
        rightMargin := dp2;
      }
      if attached {
        events := events + [ItemUpdated];
      }
    }

    /** The setters dereference m_listItem without a check: they need an attached divider. */
    method SetVisible(v: bool)
      requires attached
      modifies this`visible, this`events
      ensures visible == v
      ensures events == old(events) + (if old(visible) == v then [] else [ItemUpdated, VisibleChanged])
    {
      if visible == v {
        return;
      }
      visible := v;
      events := events + [ItemUpdated, VisibleChanged];
    }

    /** An equal value is ignored and does not mark the margin as user-set. */
    method SetLeftMargin(m: real)
      requires attached
      modifies this`leftMargin, this`leftMarginSet, this`events
      ensures leftMargin == m
      ensures leftMarginSet == (old(leftMarginSet) || old(leftMargin) != m)
      ensures events == old(events) + (if old(leftMargin) == m then [] else [ItemUpdated, LeftMarginChanged])
    {
      if leftMargin == m {
        return;
      }
      leftMargin := m;
      leftMarginSet := true;
      events := events + [ItemUpdated, LeftMarginChanged];
    }

    method SetRightMargin(m: real)
      requires attached
      modifies this`rightMargin, this`rightMarginSet, this`events
      ensures rightMargin == m
      ensures rightMarginSet == (old(rightMarginSet) || old(rightMargin) != m)
      ensures events == old(events) + (if old(rightMargin) == m then [] else [ItemUpdated, RightMarginChanged])
    {
      if rightMargin == m {
        return;
      }
      rightMargin := m;
      rightMarginSet := true;
      events := events + [ItemUpdated, RightMarginChanged];
    }
  }

  /**
   * A margin the user sets survives later grid-unit changes, except when the
   * value set equals the margin already in place: then the setter returns
   * early, the margin is not marked and the next unitsChanged overwrites it.
   */
  method UserMarginSurvivesUnits(dp2: real, m: real, dp2Later: real) returns (left: real, right: real)
    ensures left == (if m == dp2 then dp2Later else m)
    ensures right == dp2Later
  {
    var divider := new UCListItemDivider(dp2);
    divider.Init();
    divider.SetLeftMargin(m);
    divider.UnitsChanged(dp2Later);
    left := divider.leftMargin;
    right := divider.rightMargin;
  }

  // ---------------------------------------------------------------------
  // The press, tug and rebound state machine

  /** The slot reboundTo connects to the animation's stopped() signal. */
  datatype Completion = CompleteRebinding | CompleteSnapping

  datatype ItemEvent =
    | PressedChanged | MovingStarted | MovingEnded | MovingChanged | Clicked
    | FilterInstalled | FilterRemoved
    | ReboundStarted(from: real, to: real)
    | PanelDeleted(leading: bool)
    | LeadingActionsChanged | TrailingActionsChanged | SharedActionsWarning

  /** Action lists are identified by an opaque object id. */
  type ActionsId = nat

  /** pressed, tugged, suppressClick and contentMoving of UCListItemPrivate. */
  datatype Touch = Touch(pressed: bool, tugged: bool, suppressClick: bool, contentMoving: bool)

  /** The content's x, the pressed and last pointer x, and whether the Flickable's movementStarted is connected. */
  datatype Drag = Drag(contentX: real, pressedX: real, lastX: real, listening: bool)

  /**
   * One action list as the item sees it: the list, whether
   * isConnectedTo(list, this item) holds, and whether the list has a panel item.
   */
  datatype Side = Side(actions: Option<ActionsId>, connected: bool, panel: bool)

  /** The rebound animation's target and the slots connected to its stopped() signal, in order. */
  datatype Anim = Anim(to: real, completions: seq<Completion>)

  /** `flickableBlocked` stands for the saved change of the Flickable's interactive property. */
  datatype ItemState = ItemState(touch: Touch, drag: Drag, leading: Side, trailing: Side,
                                 flickableBlocked: bool, anim: Anim, events: seq<ItemEvent>)

  /** setPressed: suppressClick is reset only on an actual change. */
  function AfterSetPressed(s: ItemState, p: bool): ItemState
  {
    if s.touch.pressed != p then
      s.(touch := s.touch.(pressed := p, suppressClick := false), events := s.events + [PressedChanged])
    else s
  }

  /** setTugged: suppressClick always takes the argument; the window filter follows a change. */
  function AfterSetTugged(s: ItemState, t: bool): ItemState
  {
    if s.touch.tugged == t then s.(touch := s.touch.(suppressClick := t))
    else s.(touch := s.touch.(suppressClick := t, tugged := t),
            events := s.events + [if t then FilterInstalled else FilterRemoved])
  }

  function AfterSetContentMoved(s: ItemState, m: bool): ItemState
  {
    if s.touch.contentMoving == m then s
    else s.(touch := s.touch.(contentMoving := m),
            events := s.events + [if m then MovingStarted else MovingEnded, MovingChanged])
  }

  /**
   * connectToListItem as grabPanel(list, true) sees it. `available` says that
   * the list could give this item its panel: the panel could be created and
   * no other item holds it. A null list never grabs; any other list has a
   * panel item afterwards.
   */
  function GrabSide(side: Side, available: bool): (r: (Side, bool))
  {
    if side.actions.None? then (side, false)
    else
      var g := side.connected || available;
      (Side(side.actions, g, true), g)
  }

  /** grabPanel(leadingActions, true); a successful grab blocks the Flickable. */
  function AfterGrabLeading(s: ItemState, available: bool): (ItemState, bool)
  {
    var (side, g) := GrabSide(s.leading, available);
    (s.(leading := side, flickableBlocked := s.flickableBlocked || g), g)
  }

  function AfterGrabTrailing(s: ItemState, available: bool): (ItemState, bool)
  {
    var (side, g) := GrabSide(s.trailing, available);
    (s.(trailing := side, flickableBlocked := s.flickableBlocked || g), g)
  }

  /** _q_completeRebinding: drop the animation slots, restore the Flickable, release both panels, stop moving. */
  function AfterCompleteRebinding(s: ItemState): ItemState
  {
    AfterSetContentMoved(s.(anim := s.anim.(completions := []), flickableBlocked := false,
                            leading := s.leading.(connected := false),
                            trailing := s.trailing.(connected := false)), false)
  }

  function AfterCompleteSnapping(s: ItemState): ItemState
  {
    AfterSetContentMoved(s.(anim := s.anim.(completions := [])), false)
  }

  /** reboundTo(x, slot): animate from the current x to x, connect the slot and report moving. */
  function AfterReboundTo(s: ItemState, x: real, c: Completion): ItemState
  {
    AfterSetContentMoved(s.(anim := Anim(x, s.anim.completions + [c]),
                            events := s.events + [ReboundStarted(s.drag.contentX, x)]), true)
  }

  /** _q_rebound: unpress; rebound to 0 only when a panel is attached to this item. */
  function AfterRebound(s: ItemState): ItemState
  {
    var s1 := AfterSetPressed(s, false);
    if !s1.leading.connected && !s1.trailing.connected then s1
    else AfterReboundTo(AfterSetTugged(s1, false), 0.0, CompleteRebinding)
  }

  /** promptRebound: unpress, untug and clean up at once, without an animation. */
  function AfterPromptRebound(s: ItemState): ItemState
  {
    AfterCompleteRebinding(AfterSetTugged(AfterSetPressed(s, false), false))
  }

  /** The rebound animation stops at its target and runs the first connected slot, which disconnects the rest. */
  function AfterAnimationStopped(s: ItemState): ItemState
  {
    var s1 := s.(drag := s.drag.(contentX := s.anim.to));
    if s.anim.completions == [] then s1
    else if s.anim.completions[0] == CompleteRebinding then AfterCompleteRebinding(s1)
    else AfterCompleteSnapping(s1)
  }

  /** mousePressEvent: ignored while the Flickable moves and for buttons other than the left one. */
  function AfterPress(s: ItemState, x: real, flickableMoving: bool, leftButton: bool, hasFlickable: bool): ItemState
  {
    if flickableMoving || !leftButton then s
    else
      var s1 := AfterSetPressed(s, true);
      s1.(drag := Drag(s1.drag.contentX, x, x, s1.drag.listening || hasFlickable))
  }

  /** The snap target on release: the trailing list's snap when content is left of 0, the leading one's when right. */
  function SnapPosition(x: real, leadingSnap: real, trailingSnap: real): real
  {
    if x < 0.0 then trailingSnap else if x > 0.0 then leadingSnap else 0.0
  }

  /** What a release while pressed does after reporting moving: click and rebound, or snap. */
  function ReleaseAction(s1: ItemState, leadingSnap: real, trailingSnap: real): ItemState
  {
    if !s1.touch.suppressClick then AfterRebound(s1.(events := s1.events + [Clicked]))
    else
      var snap := SnapPosition(s1.drag.contentX, leadingSnap, trailingSnap);
      if s1.drag.contentX == 0.0 then AfterPromptRebound(s1)
      else if snap == 0.0 then AfterRebound(s1)
      else AfterReboundTo(s1, snap, CompleteSnapping)
  }

  /** mouseReleaseEvent. The snap positions are those the action lists compute. */
  function AfterRelease(s: ItemState, leadingSnap: real, trailingSnap: real): ItemState
  {
    if !s.touch.pressed then AfterSetPressed(s, false)
    else
      var s1 := AfterSetContentMoved(s.(drag := s.drag.(listening := false)), true);
      AfterSetPressed(ReleaseAction(s1, leadingSnap, trailingSnap), false)
  }

  /** The pointer has left the ±threshold band around the pressed x. */
  predicate OutsideBand(mouseX: real, pressedX: real, threshold: real)
  {
    mouseX < pressedX - threshold || mouseX > pressedX + threshold
  }

  /** The first half of mouseMoveEvent: try to grab the panels once the pointer leaves the band. */
  function AfterTugStart(s: ItemState, mouseX: real, threshold: real,
                         leadingAvailable: bool, trailingAvailable: bool): (ItemState, bool)
  {
    if s.touch.pressed && !(s.leading.connected || s.trailing.connected) &&
       OutsideBand(mouseX, s.drag.pressedX, threshold) then
      var (s1, l) := AfterGrabLeading(s.(drag := s.drag.(lastX := mouseX)), leadingAvailable);
      var (s2, t) := AfterGrabTrailing(s1, trailingAvailable);
      (s2, l || t)
    else (s, s.leading.connected || s.trailing.connected)
  }

  /** The second half of mouseMoveEvent, with a panel attached: move the content by dx, clamped, and tug. */
  function AfterDrag(s1: ItemState, mouseX: real, overshoot: real, leadingWidth: real, trailingWidth: real): ItemState
  {
    var dx := mouseX - s1.drag.lastX;
    var s2 := s1.(drag := s1.drag.(lastX := mouseX));
    if dx == 0.0 then s2
    else
      var s3 := AfterSetContentMoved(s2, true);
      var nx := ClampMacro(s2.drag.contentX + dx, MinX(s3.trailing.panel, trailingWidth, overshoot),
                           MaxX(s3.leading.panel, leadingWidth, overshoot));
      var s4 := AfterSetTugged(s3, true);
      s4.(drag := s4.drag.(contentX := nx))
  }

  /** mouseMoveEvent. `overshoot` is gu(overshootGU), `threshold` gu(xAxisMoveThresholdGU). */
  function AfterMove(s: ItemState, mouseX: real, threshold: real, overshoot: real,
                     leadingWidth: real, trailingWidth: real,
                     leadingAvailable: bool, trailingAvailable: bool): ItemState
  {
    var (s1, attached) := AfterTugStart(s, mouseX, threshold, leadingAvailable, trailingAvailable);
    if !attached then s1 else AfterDrag(s1, mouseX, overshoot, leadingWidth, trailingWidth)
  }

  /**
   * Deleting the old leading list's panel item; when both sides hold the same
   * list, that is the trailing side's panel as well.
   */
  function AfterDeleteLeadingPanel(s: ItemState): ItemState
  {
    if s.leading.actions.None? then s
    else s.(leading := s.leading.(panel := false),
            trailing := s.trailing.(panel := s.trailing.panel && s.trailing.actions != s.leading.actions),
            events := s.events + [PanelDeleted(true)])
  }

  function AfterDeleteTrailingPanel(s: ItemState): ItemState
  {
    if s.trailing.actions.None? then s
    else s.(trailing := s.trailing.(panel := false),
            leading := s.leading.(panel := s.leading.panel && s.leading.actions != s.trailing.actions),
            events := s.events + [PanelDeleted(false)])
  }

  /** Storing the new list, warning when both sides now share one list. `newPanel`: the list already has a panel item. */
  function AfterAssignLeading(s: ItemState, actions: Option<ActionsId>, newPanel: bool): ItemState
  {
    var warn := if actions.Some? && actions == s.trailing.actions then [SharedActionsWarning] else [];
    s.(leading := s.leading.(actions := actions, panel := actions.Some? && newPanel),
       events := s.events + warn + [LeadingActionsChanged])
  }

  function AfterAssignTrailing(s: ItemState, actions: Option<ActionsId>, newPanel: bool): ItemState
  {
    var warn := if actions.Some? && actions == s.leading.actions then [SharedActionsWarning] else [];
    s.(trailing := s.trailing.(actions := actions, panel := actions.Some? && newPanel),
       events := s.events + warn + [TrailingActionsChanged])
  }

  /** setLeadingActions: nothing for the same list, otherwise rebound at once, delete the old panel, switch. */
  function AfterSetLeadingActions(s: ItemState, actions: Option<ActionsId>, newPanel: bool): ItemState
  {
    if s.leading.actions == actions then s
    else AfterAssignLeading(AfterDeleteLeadingPanel(AfterPromptRebound(s)), actions, newPanel)
  }

  function AfterSetTrailingActions(s: ItemState, actions: Option<ActionsId>, newPanel: bool): ItemState
  {
    if s.trailing.actions == actions then s
    else AfterAssignTrailing(AfterDeleteTrailingPanel(AfterPromptRebound(s)), actions, newPanel)
  }

  // ---------------------------------------------------------------------
  // Properties of the state machine

  /** t's event log extends that of s. */
  predicate Extends(s: ItemState, t: ItemState)
  {
    |s.events| <= |t.events| && t.events[..|s.events|] == s.events
  }

  /** clicked is among the events t logged after s. */
  predicate ClickedSince(s: ItemState, t: ItemState)
    requires Extends(s, t)
  {
    Clicked in t.events[|s.events|..]
  }

  /** t follows s, and the new events hold no click. */
  predicate NoClickSince(s: ItemState, t: ItemState)
  {
    Extends(s, t) && !ClickedSince(s, t)
  }

  lemma ClickAfterQuiet(a: ItemState, b: ItemState, c: ItemState)
    requires NoClickSince(a, b) && Extends(b, c)
    ensures Extends(a, c) && (ClickedSince(a, c) <==> ClickedSince(b, c))
  {
    assert c.events[..|a.events|] == c.events[..|b.events|][..|a.events|];
    assert c.events[|a.events|..] == b.events[|a.events|..] + c.events[|b.events|..];
  }

  lemma QuietAfterClick(a: ItemState, b: ItemState, c: ItemState)
    requires Extends(a, b) && NoClickSince(b, c)
    ensures Extends(a, c) && (ClickedSince(a, c) <==> ClickedSince(a, b))
  {
    assert c.events[..|a.events|] == c.events[..|b.events|][..|a.events|];
    assert c.events[|a.events|..] == b.events[|a.events|..] + c.events[|b.events|..];
  }

  lemma NoClickTransitive(a: ItemState, b: ItemState, c: ItemState)
    requires NoClickSince(a, b) && NoClickSince(b, c)
    ensures NoClickSince(a, c)
  {
    assert c.events[..|a.events|] == c.events[..|b.events|][..|a.events|];
    assert c.events[|a.events|..] == b.events[|a.events|..] + c.events[|b.events|..];
  }

  /** Appending events other than clicked. */
  lemma NoClickAppend(s: ItemState, t: ItemState, e: seq<ItemEvent>)
    requires t.events == s.events + e && Clicked !in e
    ensures NoClickSince(s, t)
  {
    assert t.events[..|s.events|] == s.events;
    assert t.events[|s.events|..] == e;
  }

  lemma NoClickSetters(s: ItemState, p: bool, m: bool)
    ensures NoClickSince(s, AfterSetPressed(s, p))
    ensures NoClickSince(s, AfterSetTugged(s, p))
    ensures NoClickSince(s, AfterSetContentMoved(s, m))
  {
    if s.touch.pressed != p {
      NoClickAppend(s, AfterSetPressed(s, p), [PressedChanged]);
    } else {
      NoClickAppend(s, AfterSetPressed(s, p), []);
    }
    if s.touch.tugged != p {
      NoClickAppend(s, AfterSetTugged(s, p), [if p then FilterInstalled else FilterRemoved]);
    } else {
      NoClickAppend(s, AfterSetTugged(s, p), []);
    }
    if s.touch.contentMoving != m {
      NoClickAppend(s, AfterSetContentMoved(s, m), [if m then MovingStarted else MovingEnded, MovingChanged]);
    } else {
      NoClickAppend(s, AfterSetContentMoved(s, m), []);
    }
  }

  lemma NoClickReboundTo(s: ItemState, x: real, c: Completion)
    ensures NoClickSince(s, AfterReboundTo(s, x, c))
    ensures NoClickSince(s, AfterCompleteRebinding(s))
  {
    var r := s.(anim := Anim(x, s.anim.completions + [c]), events := s.events + [ReboundStarted(s.drag.contentX, x)]);
    NoClickAppend(s, r, [ReboundStarted(s.drag.contentX, x)]);
    NoClickSetters(r, false, true);
    NoClickTransitive(s, r, AfterReboundTo(s, x, c));
    var q := s.(anim := s.anim.(completions := []), flickableBlocked := false,
                leading := s.leading.(connected := false), trailing := s.trailing.(connected := false));
    NoClickAppend(s, q, []);
    NoClickSetters(q, false, false);
    NoClickTransitive(s, q, AfterCompleteRebinding(s));
  }

  /** Rebounding, in either form, never emits clicked. */
  lemma NoClickRebounds(s: ItemState)
    ensures NoClickSince(s, AfterRebound(s))
    ensures NoClickSince(s, AfterPromptRebound(s))
  {
    var p := AfterSetPressed(s, false);
    NoClickSetters(s, false, false);
    var pt := AfterSetTugged(p, false);
    NoClickSetters(p, false, false);
    NoClickTransitive(s, p, pt);
    NoClickReboundTo(pt, 0.0, CompleteRebinding);
    NoClickTransitive(s, pt, AfterReboundTo(pt, 0.0, CompleteRebinding));
    NoClickTransitive(s, pt, AfterCompleteRebinding(pt));
  }

  /** The decision on release emits clicked exactly when the click is not suppressed. */
  lemma ReleaseActionClicks(s1: ItemState, leadingSnap: real, trailingSnap: real)
    ensures var t := ReleaseAction(s1, leadingSnap, trailingSnap);
      Extends(s1, t) && (ClickedSince(s1, t) <==> !s1.touch.suppressClick)
  {
    var t := ReleaseAction(s1, leadingSnap, trailingSnap);
    if !s1.touch.suppressClick {
      var c := s1.(events := s1.events + [Clicked]);
      NoClickRebounds(c);
      assert t.events[..|c.events|] == c.events;
      assert t.events[|s1.events|..][0] == Clicked;
    } else {
      var snap := SnapPosition(s1.drag.contentX, leadingSnap, trailingSnap);
      NoClickRebounds(s1);
      NoClickReboundTo(s1, snap, CompleteSnapping);
    }
  }

  /** A release while pressed emits clicked exactly when no tug suppressed it; pressed is false afterwards. */
  lemma ReleaseClicks(s: ItemState, leadingSnap: real, trailingSnap: real)
    requires s.touch.pressed
    ensures var t := AfterRelease(s, leadingSnap, trailingSnap);
      !t.touch.pressed && Extends(s, t) && (ClickedSince(s, t) <==> !s.touch.suppressClick)
  {
    var s0 := s.(drag := s.drag.(listening := false));
    NoClickAppend(s, s0, []);
    var s1 := AfterSetContentMoved(s0, true);
    NoClickSetters(s0, false, true);
    NoClickTransitive(s, s0, s1);
    var s2 := ReleaseAction(s1, leadingSnap, trailingSnap);
    ReleaseActionClicks(s1, leadingSnap, trailingSnap);
    ClickAfterQuiet(s, s1, s2);
    NoClickSetters(s2, false, true);
    QuietAfterClick(s, s2, AfterSetPressed(s2, false));
  }

  /** The release decision when a tug suppressed the click. */
  lemma ReleaseAfterTug(s: ItemState, leadingSnap: real, trailingSnap: real)
    requires s.touch.pressed && s.touch.suppressClick
    ensures var snap := SnapPosition(s.drag.contentX, leadingSnap, trailingSnap);
      var s1 := AfterSetContentMoved(s.(drag := s.drag.(listening := false)), true);
      AfterRelease(s, leadingSnap, trailingSnap) ==
        AfterSetPressed(if s.drag.contentX == 0.0 then AfterPromptRebound(s1)
                        else if snap == 0.0 then AfterRebound(s1)
                        else AfterReboundTo(s1, snap, CompleteSnapping), false)
  {
  }

  /** A snap to a non-zero position keeps the panel attached and leaves the snapping slot connected. */
  lemma SnapKeepsPanel(s: ItemState, leadingSnap: real, trailingSnap: real)
    requires s.touch.pressed && s.touch.suppressClick && s.drag.contentX != 0.0
    requires SnapPosition(s.drag.contentX, leadingSnap, trailingSnap) != 0.0
    ensures var t := AfterRelease(s, leadingSnap, trailingSnap);
      t.anim == Anim(SnapPosition(s.drag.contentX, leadingSnap, trailingSnap), s.anim.completions + [CompleteSnapping]) &&
      t.leading == s.leading && t.trailing == s.trailing &&
      !t.touch.pressed && t.touch.contentMoving
  {
  }

  /** Without an attached panel, any move inside the threshold band changes nothing at all. */
  lemma SmallMoveIgnored(s: ItemState, mouseX: real, threshold: real, overshoot: real,
                         lw: real, tw: real, la: bool, ta: bool)
    requires !s.leading.connected && !s.trailing.connected
    requires !OutsideBand(mouseX, s.drag.pressedX, threshold)
    ensures AfterMove(s, mouseX, threshold, overshoot, lw, tw, la, ta) == s
  {
  }

  /** Without a press, moves never start a tug. */
  lemma UnpressedMoveIgnored(s: ItemState, mouseX: real, threshold: real, overshoot: real,
                             lw: real, tw: real, la: bool, ta: bool)
    requires !s.touch.pressed && !s.leading.connected && !s.trailing.connected
    ensures AfterMove(s, mouseX, threshold, overshoot, lw, tw, la, ta) == s
  {
  }

  /**
   * Once a panel is attached, a move by a non-zero dx marks the item tugged,
   * which suppresses the click on release, and keeps the content in the drag range.
   */
  lemma TugSuppressesClick(s: ItemState, mouseX: real, threshold: real, overshoot: real,
                           lw: real, tw: real, la: bool, ta: bool)
    requires s.leading.connected || s.trailing.connected
    requires mouseX != s.drag.lastX
    ensures var t := AfterMove(s, mouseX, threshold, overshoot, lw, tw, la, ta);
      t.touch.tugged && t.touch.suppressClick && t.touch.contentMoving && t.drag.lastX == mouseX &&
      var lo, hi := MinX(t.trailing.panel, tw, overshoot), MaxX(t.leading.panel, lw, overshoot);
      (lo <= hi ==> lo <= t.drag.contentX <= hi) && (hi < lo ==> hi <= t.drag.contentX <= lo)
  {
  }

  /** Leaving the band grabs the panels but does not move the content yet: dx is measured from the new lastX. */
  lemma TugStartDoesNotMove(s: ItemState, mouseX: real, threshold: real, overshoot: real,
                            lw: real, tw: real, la: bool, ta: bool)
    requires s.touch.pressed && !s.leading.connected && !s.trailing.connected
    requires OutsideBand(mouseX, s.drag.pressedX, threshold)
    ensures var t := AfterMove(s, mouseX, threshold, overshoot, lw, tw, la, ta);
      t.drag.contentX == s.drag.contentX && t.drag.lastX == mouseX && t.touch == s.touch &&
      t.leading.connected == (s.leading.actions.Some? && la) &&
      t.trailing.connected == (s.trailing.actions.Some? && ta)
  {
  }

  /** setTugged always sets suppressClick; setPressed clears it only on a change; setContentMoved reports only changes. */
  lemma SuppressClickRules(s: ItemState, p: bool, t: bool)
    ensures AfterSetTugged(s, t).touch.suppressClick == t
    ensures AfterSetPressed(s, p).touch.suppressClick == (s.touch.suppressClick && s.touch.pressed == p)
    ensures AfterSetPressed(s, s.touch.pressed) == s
    ensures AfterSetContentMoved(s, s.touch.contentMoving) == s
    ensures AfterSetContentMoved(s, !s.touch.contentMoving).events == s.events +
      [if s.touch.contentMoving then MovingEnded else MovingStarted, MovingChanged]
  {
  }

  /** promptRebound leaves the item unpressed, untugged, still, with both panels detached and no slot connected. */
  lemma PromptReboundState(s: ItemState)
    ensures var t := AfterPromptRebound(s);
      t.touch == Touch(false, false, false, false) && t.drag == s.drag &&
      t.leading == s.leading.(connected := false) && t.trailing == s.trailing.(connected := false) &&
      t.anim == s.anim.(completions := []) && !t.flickableBlocked
  {
    var p := AfterSetPressed(s, false);
    assert !p.touch.pressed && p.drag == s.drag && p.leading == s.leading && p.trailing == s.trailing && p.anim == s.anim;
    var pt := AfterSetTugged(p, false);
    assert pt.touch.(contentMoving := false) == Touch(false, false, false, false);
    assert pt.drag == s.drag && pt.leading == s.leading && pt.trailing == s.trailing && pt.anim == s.anim;
  }

  /** Replacing the leading list rebounds at once and detaches both panels; the same list changes nothing. */
  lemma SetLeadingActionsState(s: ItemState, actions: Option<ActionsId>, newPanel: bool)
    ensures AfterSetLeadingActions(s, s.leading.actions, newPanel) == s
    ensures actions != s.leading.actions ==>
      var t := AfterSetLeadingActions(s, actions, newPanel);
      t.leading.actions == actions && t.trailing.actions == s.trailing.actions &&
      !t.touch.pressed && !t.touch.tugged && !t.touch.contentMoving &&
      !t.leading.connected && !t.trailing.connected && t.anim.completions == []
  {
    if actions != s.leading.actions {
      PromptReboundState(s);
      var s1 := AfterPromptRebound(s);
      var s2 := AfterDeleteLeadingPanel(s1);
      assert s2.touch == s1.touch && s2.anim == s1.anim && s2.leading.actions == s.leading.actions;
      assert s2.trailing.actions == s.trailing.actions && !s2.leading.connected && !s2.trailing.connected;
    }
  }

  /** Event logs compose: what t logged after s is what s1 logged after s, then what t logged after s1. */
  lemma LogsCompose(s: ItemState, s1: ItemState, t: ItemState)
    requires Extends(s, s1) && Extends(s1, t)
    ensures Extends(s, t) && t.events[|s.events|..] == s1.events[|s.events|..] + t.events[|s1.events|..]
  {
    assert t.events[..|s.events|] == t.events[..|s1.events|][..|s.events|];
  }

  /** Deleting the old panel and storing the new list logs the deletion, if any, and the change report. */
  lemma SwitchLeadingEvents(x: ItemState, actions: Option<ActionsId>, newPanel: bool)
    ensures var t := AfterAssignLeading(AfterDeleteLeadingPanel(x), actions, newPanel);
      Extends(x, t) && Clicked !in t.events[|x.events|..] &&
      (x.leading.actions.Some? <==> PanelDeleted(true) in t.events[|x.events|..]) &&
      t.events[|t.events| - 1] == LeadingActionsChanged
  {
    var t := AfterAssignLeading(AfterDeleteLeadingPanel(x), actions, newPanel);
    var tail := SwitchLeadingReports(x, actions);
    assert t.events == x.events + tail[..|tail| - 1] + [LeadingActionsChanged] by {
      assert tail[..|tail| - 1] + [LeadingActionsChanged] == tail;
      SwitchLeadingLog(x, actions, newPanel);
    }
    LogTail(x, t, tail[..|tail| - 1], [LeadingActionsChanged]);
  }

  /** The reports of deleting the old leading panel and storing the new list. */
  function SwitchLeadingReports(x: ItemState, actions: Option<ActionsId>): (es: seq<ItemEvent>)
    ensures es != [] && es[|es| - 1] == LeadingActionsChanged
    ensures Clicked !in es
    ensures x.leading.actions.Some? <==> PanelDeleted(true) in es
  {
    var trailing := AfterDeleteLeadingPanel(x).trailing;
    (if x.leading.actions.Some? then [PanelDeleted(true)] else []) +
    (if actions.Some? && actions == trailing.actions then [SharedActionsWarning] else []) +
    [LeadingActionsChanged]
  }

  lemma SwitchLeadingLog(x: ItemState, actions: Option<ActionsId>, newPanel: bool)
    ensures AfterAssignLeading(AfterDeleteLeadingPanel(x), actions, newPanel).events ==
            x.events + SwitchLeadingReports(x, actions)
  {
    var x2 := AfterDeleteLeadingPanel(x);
    var del := if x.leading.actions.Some? then [PanelDeleted(true)] else [];
    var warn := if actions.Some? && actions == x2.trailing.actions then [SharedActionsWarning] else [];
    assert x2.events == x.events + del;
    assert AfterAssignLeading(x2, actions, newPanel).events == x2.events + warn + [LeadingActionsChanged];
  }

  /** What two appends log after s is the two pieces in order. */
  lemma LogTail(x: ItemState, t: ItemState, first: seq<ItemEvent>, second: seq<ItemEvent>)
    requires second != [] && t.events == x.events + first + second
    ensures Extends(x, t) && t.events[|x.events|..] == first + second
    ensures t.events[|t.events| - 1] == second[|second| - 1]
  {
    assert t.events == x.events + (first + second);
  }

  /** Replacing the leading list deletes the old list's panel, if any, and ends by reporting the change. */
  lemma SetLeadingActionsEvents(s: ItemState, actions: Option<ActionsId>, newPanel: bool)
    requires actions != s.leading.actions
    ensures var t := AfterSetLeadingActions(s, actions, newPanel);
      Extends(s, t) && !ClickedSince(s, t) &&
      (s.leading.actions.Some? <==> PanelDeleted(true) in t.events[|s.events|..]) &&
      t.events[|t.events| - 1] == LeadingActionsChanged
  {
    var s1 := AfterPromptRebound(s);
    PromptReboundEvents(s);
    PromptReboundState(s);
    SwitchLeadingEvents(s1, actions, newPanel);
    LogsCompose(s, s1, AfterSetLeadingActions(s, actions, newPanel));
  }

  /** The reports an immediate rebound emits, by the flags it finds set. */
  function PromptReboundReports(touch: Touch): (es: seq<ItemEvent>)
    ensures Clicked !in es && PanelDeleted(true) !in es
  {
    (if touch.pressed then [PressedChanged] else []) +
    (if touch.tugged then [FilterRemoved] else []) +
    (if touch.contentMoving then [MovingEnded, MovingChanged] else [])
  }

  lemma PromptReboundEventLog(s: ItemState)
    ensures AfterPromptRebound(s).events == s.events + PromptReboundReports(s.touch)
  {
    var a := if s.touch.pressed then [PressedChanged] else [];
    var b := if s.touch.tugged then [FilterRemoved] else [];
    var c := if s.touch.contentMoving then [MovingEnded, MovingChanged] else [];
    var p := AfterSetPressed(s, false);
    assert p.events == s.events + a && p.touch.tugged == s.touch.tugged;
    var pt := AfterSetTugged(p, false);
    assert pt.events == p.events + b && pt.touch.contentMoving == s.touch.contentMoving;
    assert AfterPromptRebound(s).events == pt.events + c;
    assert s.events + a + b + c == s.events + PromptReboundReports(s.touch);
  }

  /** The events of an immediate rebound report only state changes: no click and no panel deletion. */
  lemma PromptReboundEvents(s: ItemState)
    ensures var t := AfterPromptRebound(s);
      Extends(s, t) && Clicked !in t.events[|s.events|..] && PanelDeleted(true) !in t.events[|s.events|..]
  {
    PromptReboundEventLog(s);
    var t := AfterPromptRebound(s);
    assert t.events[|s.events|..] == PromptReboundReports(s.touch);
  }

  // ---------------------------------------------------------------------
  // The item

  class UCListItem {
    /** pressed, tugged, suppressClick and contentMoving. */
    var touch: Touch
    /** contentItem's x, pressedPos.x, lastPos.x and the movementStarted connection. */
    var drag: Drag
    var leading: Side
    var trailing: Side
    var flickableBlocked: bool
    var anim: Anim
    var events: seq<ItemEvent>

    function State(): ItemState
      reads this
    {
      ItemState(touch, drag, leading, trailing, flickableBlocked, anim, events)
    }

    /**
     * The private constructor leaves suppressClick uninitialised; the model
     * takes its first value as a parameter.
     */
    constructor (suppress0: bool)
      ensures State() == ItemState(Touch(false, false, suppress0, false), Drag(0.0, 0.0, 0.0, false),
                                   Side(None, false, false), Side(None, false, false), false, Anim(0.0, []), [])
    {
      touch := Touch(false, false, suppress0, false);
      drag := Drag(0.0, 0.0, 0.0, false);
      leading, trailing := Side(None, false, false), Side(None, false, false);
      flickableBlocked, anim, events := false, Anim(0.0, []), [];
    }

    method SetPressed(p: bool)
      modifies this`touch, this`events
      ensures State() == AfterSetPressed(old(State()), p)
    {
      if touch.pressed != p {
        touch := touch.(pressed := p, suppressClick := false);
        events := events + [PressedChanged];
      }
    }

    method SetTugged(t: bool)
      modifies this`touch, this`events
      ensures State() == AfterSetTugged(old(State()), t)
    {
      var wasTugged := touch.tugged;
      touch := touch.(suppressClick := t);
      if wasTugged == t {
        return;
      }
      touch := touch.(tugged := t);
      events := events + [if t then FilterInstalled else FilterRemoved];
    }

    method SetContentMoved(m: bool)
      modifies this`touch, this`events
      ensures State() == AfterSetContentMoved(old(State()), m)
    {
      if touch.contentMoving == m {
        return;
      }
      touch := touch.(contentMoving := m);
      events := events + [if m then MovingStarted else MovingEnded, MovingChanged];
    }

    method GrabLeading(available: bool) returns (grab: bool)
      modifies this`leading, this`flickableBlocked
      ensures (State(), grab) == AfterGrabLeading(old(State()), available)
    {
      if leading.actions.None? {
        return false;
      }
      grab := leading.connected || available;
      leading := Side(leading.actions, grab, true);
      if grab {
        flickableBlocked := true;
      }
    }

    method GrabTrailing(available: bool) returns (grab: bool)
      modifies this`trailing, this`flickableBlocked
      ensures (State(), grab) == AfterGrabTrailing(old(State()), available)
    {
      if trailing.actions.None? {
        return false;
      }
      grab := trailing.connected || available;
      trailing := Side(trailing.actions, grab, true);
      if grab {
        flickableBlocked := true;
      }
    }

    method CompleteRebindingSlot()
      modifies this
      ensures State() == AfterCompleteRebinding(old(State()))
    {
      anim := anim.(completions := []);
      flickableBlocked := false;
      leading := leading.(connected := false);
      trailing := trailing.(connected := false);
      SetContentMoved(false);
    }

    method CompleteSnappingSlot()
      modifies this
      ensures State() == AfterCompleteSnapping(old(State()))
    {
      anim := anim.(completions := []);
      SetContentMoved(false);
    }

    method ReboundTo(x: real, c: Completion)
      modifies this
      ensures State() == AfterReboundTo(old(State()), x, c)
    {
      anim := Anim(x, anim.completions + [c]);
      events := events + [ReboundStarted(drag.contentX, x)];
      SetContentMoved(true);
    }

    method Rebound()
      modifies this
      ensures State() == AfterRebound(old(State()))
    {
      SetPressed(false);
      if !leading.connected && !trailing.connected {
        return;
      }
      SetTugged(false);
      ReboundTo(0.0, CompleteRebinding);
    }

    method PromptRebound()
      modifies this
      ensures State() == AfterPromptRebound(old(State()))
    {
      SetPressed(false);
      SetTugged(false);
      CompleteRebindingSlot();
    }

    /** The rebound animation's stopped() signal. */
    method AnimationStopped()
      modifies this
      ensures State() == AfterAnimationStopped(old(State()))
    {
      drag := drag.(contentX := anim.to);
      if anim.completions == [] {
        return;
      }
      if anim.completions[0] == CompleteRebinding {
        CompleteRebindingSlot();
      } else {
        CompleteSnappingSlot();
      }
    }

    /** The Flickable started moving while this item listens: rebound. */
    method FlickableMovementStarted()
      modifies this
      ensures State() == if old(drag.listening) then AfterRebound(old(State())) else old(State())
    {
      if drag.listening {
        Rebound();
      }
    }

    /** eventFilter on the window: a press outside the item rebounds it. */
    method WindowPress(inside: bool)
      modifies this
      ensures State() == if inside then old(State()) else AfterRebound(old(State()))
    {
      if !inside {
        Rebound();
      }
    }

    method MousePress(x: real, flickableMoving: bool, leftButton: bool, hasFlickable: bool)
      modifies this
      ensures State() == AfterPress(old(State()), x, flickableMoving, leftButton, hasFlickable)
    {
      if flickableMoving {
        return;
      }
      if leftButton {
        SetPressed(true);
        drag := Drag(drag.contentX, x, x, drag.listening || hasFlickable);
      }
    }

    method ReleaseDecision(leadingSnap: real, trailingSnap: real)
      modifies this
      ensures State() == ReleaseAction(old(State()), leadingSnap, trailingSnap)
    {
      if !touch.suppressClick {
        events := events + [Clicked];
        Rebound();
      } else {
        var snap := SnapPosition(drag.contentX, leadingSnap, trailingSnap);
        if drag.contentX == 0.0 {
          PromptRebound();
        } else if snap == 0.0 {
          Rebound();
        } else {
          ReboundTo(snap, CompleteSnapping);
        }
      }
    }

    method MouseRelease(leadingSnap: real, trailingSnap: real)
      modifies this
      ensures State() == AfterRelease(old(State()), leadingSnap, trailingSnap)
    {
      if touch.pressed {
        drag := drag.(listening := false);
        SetContentMoved(true);
        ReleaseDecision(leadingSnap, trailingSnap);
      }
      SetPressed(false);
    }

    method DragContent(mouseX: real, overshoot: real, leadingWidth: real, trailingWidth: real)
      modifies this
      ensures State() == AfterDrag(old(State()), mouseX, overshoot, leadingWidth, trailingWidth)
    {
      var x := drag.contentX;
      var dx := mouseX - drag.lastX;
      drag := drag.(lastX := mouseX);
      if dx != 0.0 {
        SetContentMoved(true);
        x := ClampX(x, dx, leading.panel, leadingWidth, trailing.panel, trailingWidth, overshoot);
        SetTugged(true);
        drag := drag.(contentX := x);
      }
    }

    method MouseMove(mouseX: real, threshold: real, overshoot: real, leadingWidth: real, trailingWidth: real,
                     leadingAvailable: bool, trailingAvailable: bool)
      modifies this
      ensures State() == AfterMove(old(State()), mouseX, threshold, overshoot, leadingWidth, trailingWidth,
                                   leadingAvailable, trailingAvailable)
    {
      var leadingAttached := leading.connected;
      var trailingAttached := trailing.connected;
      if touch.pressed && !(leadingAttached || trailingAttached) {
        if OutsideBand(mouseX, drag.pressedX, threshold) {
          drag := drag.(lastX := mouseX);
          leadingAttached := GrabLeading(leadingAvailable);
          trailingAttached := GrabTrailing(trailingAvailable);
        }
      }
      if leadingAttached || trailingAttached {
        DragContent(mouseX, overshoot, leadingWidth, trailingWidth);
      }
    }

    method SetLeadingActions(actions: Option<ActionsId>, newPanel: bool)
      modifies this
      ensures State() == AfterSetLeadingActions(old(State()), actions, newPanel)
    {
      if leading.actions == actions {
        return;
      }
      PromptRebound();
      DeleteLeadingPanel();
      AssignLeading(actions, newPanel);
    }

    /** The old leading list's panel goes, and a trailing panel built for the same list with it. */
    method DeleteLeadingPanel()
      modifies this`leading, this`trailing, this`events
      ensures State() == AfterDeleteLeadingPanel(old(State()))
    {
      if leading.actions.Some? {
        trailing := trailing.(panel := trailing.panel && trailing.actions != leading.actions);
        leading := leading.(panel := false);
        events := events + [PanelDeleted(true)];
      }
    }

    /** The new leading list is stored, with a warning when the trailing list is the same one. */
    method AssignLeading(actions: Option<ActionsId>, newPanel: bool)
      modifies this`leading, this`events
      ensures State() == AfterAssignLeading(old(State()), actions, newPanel)
    {
      leading := leading.(actions := actions, panel := actions.Some? && newPanel);
      if leading.actions == trailing.actions && leading.actions.Some? {
        events := events + [SharedActionsWarning];
      }
      events := events + [LeadingActionsChanged];
    }

    method SetTrailingActions(actions: Option<ActionsId>, newPanel: bool)
      modifies this
      ensures State() == AfterSetTrailingActions(old(State()), actions, newPanel)
    {
      if trailing.actions == actions {
        return;
      }
      PromptRebound();
      DeleteTrailingPanel();
      AssignTrailing(actions, newPanel);
    }

    /** The old trailing list's panel goes, and a leading panel built for the same list with it. */
    method DeleteTrailingPanel()
      modifies this`leading, this`trailing, this`events
      ensures State() == AfterDeleteTrailingPanel(old(State()))
    {
      if trailing.actions.Some? {
        leading := leading.(panel := leading.panel && leading.actions != trailing.actions);
        trailing := trailing.(panel := false);
        events := events + [PanelDeleted(false)];
      }
    }

    /** The new trailing list is stored, with a warning when the leading list is the same one. */
    method AssignTrailing(actions: Option<ActionsId>, newPanel: bool)
      modifies this`trailing, this`events
      ensures State() == AfterAssignTrailing(old(State()), actions, newPanel)
    {
      trailing := trailing.(actions := actions, panel := actions.Some? && newPanel);
      if leading.actions == trailing.actions && trailing.actions.Some? {
        events := events + [SharedActionsWarning];
      }
      events := events + [TrailingActionsChanged];
    }
  }

  /** A press and release without movement on a fresh item emits clicked and leaves it unpressed. */
  method PressReleaseClicks(suppress0: bool, x: real, hasFlickable: bool) returns (clicked: bool, pressed: bool)
    ensures clicked && !pressed
  {
    var item := new UCListItem(suppress0);
    item.MousePress(x, false, true, hasFlickable);
    ghost var before := item.State();
    item.MouseRelease(0.0, 0.0);
    ReleaseClicks(before, 0.0, 0.0);
    ghost var k :| 0 <= k < |item.events[|before.events|..]| && item.events[|before.events|..][k] == Clicked;
    assert item.events[|before.events| + k] == Clicked;
    clicked := Clicked in item.events;
    pressed := item.touch.pressed;
  }
}
