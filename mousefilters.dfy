// MouseFilters (ucmousefilters.cpp): the Mouse and InverseMouse attached
// filters. A filter watches the owner's mouse and hover events, keeps the
// pressed buttons as a bit mask and the long-press, double-click and hover
// flags, and reports composed signals (clicked, pressAndHold) on top of them.
module MouseFilters {

  /**
   * A Qt::MouseButton, named by the position of its bit; a Qt::MouseButtons
   * mask is the set of the buttons whose bits are set. Press and release
   * events carry exactly one button.
   */
  type Button = nat
  type Buttons = set<Button>

  /** Where the filter is installed: on the owner item, or application wide (InverseMouse). */
  datatype Host = OwnerItem | Application

  /** The signals the filter emits, in order, plus the event-filter installation it performs. */
  datatype Signal =
    | Entered | Exited | Pressed | Released(isClick: bool) | Clicked | PressAndHold
    | DoubleClicked | PositionChanged | EnabledChanged | ExcludeInputAreaChanged
    | FilterInstalled(host: Host) | FilterRemoved(host: Host)

  /** What the filter reads from its owner: acceptedMouseButtons() and acceptHoverEvents(). */
  datatype Owner = Owner(buttons: Buttons, acceptsHover: bool)

  /** m_pressedButtons, m_longPress, m_doubleClicked, m_moved and whether the press-and-hold timer runs. */
  datatype Gesture = Gesture(pressed: Buttons, longPress: bool, doubleClicked: bool, moved: bool, timer: bool)

  datatype MouseState = MouseState(gesture: Gesture, hovered: bool, enabled: bool, events: seq<Signal>)

  /**
   * The answer of the QML side to one delivered event: whether the handler
   * accepted the signal's event, whether a doubleClicked handler is connected,
   * and the accepted flag the Qt event arrived with.
   */
  datatype Response = Response(accepted: bool, doubleClickConnected: bool, incomingAccepted: bool)

  datatype MouseKind = Press | Release | DoubleClick | Move
  datatype HoverKind = HoverEnter | HoverMove | HoverLeave

  /**
   * An event as the filter sees it, already mapped to the owner: for mouse
   * events, the button, whether the point lies inside the owner and whether
   * it lies in the on-screen keyboard's rectangle.
   */
  datatype InputEvent =
    | MouseEvent(kind: MouseKind, button: Button, inOwner: bool, inOSK: bool)
    | HoverEvent(hover: HoverKind)
    | OtherEvent

  /** The object an application-wide event is addressed to, as InverseMouse classifies it. */
  datatype Target = OwnerTarget | MouseAreaTarget | OtherTarget

  const InitialState := MouseState(Gesture({}, false, false, false, false), false, false, [])

  // ---------------------------------------------------------------------
  // The handlers, one state transition each

  /** setHovered: entered/exited only on a change. */
  function AfterSetHovered(s: MouseState, h: bool): MouseState
  {
    if s.hovered == h then s else s.(hovered := h, events := s.events + [if h then Entered else Exited])
  }

  /** mousePressed: m_moved is cleared for every press, even one in a button the owner does not accept. */
  function AfterPress(o: Owner, s: MouseState, button: Button): MouseState
  {
    var g := s.gesture.(moved := false);
    if button !in o.buttons then s.(gesture := g)
    else
      var s1 := AfterSetHovered(s.(gesture := g.(pressed := g.pressed + {button}, longPress := false,
                                                  doubleClicked := false, timer := true)), true);
      s1.(events := s1.events + [Pressed])
  }

  /** mouseMoved: only while some button is pressed; a move cancels a pending double click. */
  function AfterMove(s: MouseState): MouseState
  {
    if s.gesture.pressed == {} then s
    else
      var s1 := AfterSetHovered(s, true);
      s1.(gesture := s1.gesture.(moved := true, doubleClicked := false), events := s1.events + [PositionChanged])
  }

  /** The click condition of mouseReleased. */
  predicate IsClick(g: Gesture, button: Button)
  {
    button in g.pressed && !g.longPress && !g.doubleClicked
  }

  /** mouseReleased: released, then the button leaves the mask, then clicked, then maybe exited. */
  function AfterRelease(o: Owner, s: MouseState, button: Button): MouseState
  {
    if s.gesture.pressed == {} then s
    else
      var c := IsClick(s.gesture, button);
      var g := s.gesture.(pressed := s.gesture.pressed - {button}, timer := false);
      var s1 := s.(gesture := g, events := s.events + [Released(c)] + (if c then [Clicked] else []));
      if g.pressed == {} && !o.acceptsHover then AfterSetHovered(s1, false) else s1
  }

  /** mouseDblClick: doubleClicked is latched only when a handler is connected to the signal. */
  function AfterDoubleClick(s: MouseState, connected: bool): MouseState
  {
    if s.gesture.pressed == {} || !connected then s
    else s.(gesture := s.gesture.(doubleClicked := true), events := s.events + [DoubleClicked])
  }

  /** hoverEntered, hoverMoved, hoverExited. */
  function AfterHover(s: MouseState, k: HoverKind): MouseState
  {
    match k
    case HoverEnter => AfterSetHovered(s, true)
    case HoverMove => s.(events := s.events + [PositionChanged])
    case HoverLeave => AfterSetHovered(s, false)
  }

  /**
   * timerEvent. `holdTimer` says the event carries the press-and-hold timer's
   * id; a stopped QBasicTimer has id 0, which no timer event carries, so the
   * timer must be running. `accepted` is the pressAndHold handler's answer.
   */
  function AfterTimer(s: MouseState, holdTimer: bool, accepted: bool): MouseState
  {
    if !(s.enabled && holdTimer && s.gesture.timer) then s
    else
      var g := s.gesture.(timer := false);
      if g.pressed != {} && s.hovered then s.(gesture := g.(longPress := accepted), events := s.events + [PressAndHold])
      else s.(gesture := g)
  }

  /** setEnabled: only for an owner that handles mouse buttons, and only on a change. */
  function AfterSetEnabled(o: Owner, s: MouseState, e: bool, host: Host): MouseState
  {
    if e == s.enabled || o.buttons == {} then s
    else s.(enabled := e, events := s.events + [if e then FilterInstalled(host) else FilterRemoved(host), EnabledChanged])
  }

  /** The state after a mouse event delivered to the handlers. */
  function AfterMouse(o: Owner, s: MouseState, k: MouseKind, button: Button, r: Response): MouseState
  {
    match k
    case Press => AfterPress(o, s, button)
    case Release => AfterRelease(o, s, button)
    case DoubleClick => AfterDoubleClick(s, r.doubleClickConnected)
    case Move => AfterMove(s)
  }

  /** What a mouse handler returns: whether the event is consumed. */
  function MouseResult(o: Owner, s: MouseState, k: MouseKind, button: Button, r: Response): bool
  {
    match k
    case Press => button in o.buttons && r.accepted
    case DoubleClick => s.gesture.pressed != {} && (if r.doubleClickConnected then r.accepted else r.incomingAccepted)
    case _ => s.gesture.pressed != {} && r.accepted
  }

  /** UCMouse::eventFilter: every event addressed to the owner goes to its handler. */
  function Step(o: Owner, s: MouseState, ev: InputEvent, r: Response): MouseState
  {
    match ev
    case MouseEvent(k, b, _, _) => AfterMouse(o, s, k, b, r)
    case HoverEvent(k) => AfterHover(s, k)
    case OtherEvent => s
  }

  function StepResult(o: Owner, s: MouseState, ev: InputEvent, r: Response): bool
  {
    match ev
    case MouseEvent(k, b, _, _) => MouseResult(o, s, k, b, r)
    case _ => false
  }

  /** UCInverseMouse::contains: outside the owner, and outside the keyboard when it is excluded. */
  function InverseContains(inOwner: bool, inOSK: bool, excludeOSK: bool): (c: bool)
    ensures c <==> !inOwner && !(excludeOSK && inOSK)
  {
    var result := !inOwner;
    if excludeOSK then result && !inOSK else result
  }

  /**
   * UCInverseMouse::eventFilter: events for the owner or for mouse areas, and
   * mouse events inside the inverse area's complement, pass through untouched;
   * hover events are delivered wherever they happen.
   */
  function InverseStep(o: Owner, s: MouseState, excludeOSK: bool, t: Target, ev: InputEvent, r: Response): MouseState
  {
    if t != OtherTarget then s
    else match ev
      case MouseEvent(k, b, inOwner, inOSK) =>
        if InverseContains(inOwner, inOSK, excludeOSK) then AfterMouse(o, s, k, b, r) else s
      case HoverEvent(k) => AfterHover(s, k)
      case OtherEvent => s
  }

  function InverseStepResult(o: Owner, s: MouseState, excludeOSK: bool, t: Target, ev: InputEvent, r: Response): bool
  {
    t == OtherTarget && ev.MouseEvent? && InverseContains(ev.inOwner, ev.inOSK, excludeOSK) &&
    MouseResult(o, s, ev.kind, ev.button, r)
  }

  // ---------------------------------------------------------------------
  // Properties of the handlers

  /** A press in an accepted button records it, clears both suppressions, hovers and starts the timer. */
  lemma PressAccepted(o: Owner, s: MouseState, button: Button, r: Response)
    requires button in o.buttons
    ensures var t := AfterPress(o, s, button);
      t.gesture == Gesture(s.gesture.pressed + {button}, false, false, false, true) &&
      t.hovered && t.enabled == s.enabled &&
      t.events == s.events + (if s.hovered then [] else [Entered]) + [Pressed]
    ensures MouseResult(o, s, Press, button, r) == r.accepted
  {
  }

  /** A press in a button the owner does not accept is ignored: only m_moved is cleared. */
  lemma PressIgnored(o: Owner, s: MouseState, button: Button, r: Response)
    requires button !in o.buttons
    ensures AfterPress(o, s, button) == s.(gesture := s.gesture.(moved := false))
    ensures !MouseResult(o, s, Press, button, r)
  {
  }

  /** With no button pressed, move, release and double click change nothing and are not consumed. */
  lemma IdleIgnores(o: Owner, s: MouseState, k: MouseKind, button: Button, r: Response)
    requires s.gesture.pressed == {} && k != Press
    ensures AfterMouse(o, s, k, button, r) == s
    ensures !MouseResult(o, s, k, button, r)
  {
  }

  /** Release reports a click exactly when the released button was down and nothing suppressed it. */
  lemma ReleaseClicks(o: Owner, s: MouseState, button: Button)
    requires s.gesture.pressed != {}
    ensures var t := AfterRelease(o, s, button);
      |s.events| < |t.events| && t.events[..|s.events|] == s.events &&
      t.events[|s.events|] == Released(IsClick(s.gesture, button)) &&
      ((Clicked in t.events[|s.events|..]) <==>
        (button in s.gesture.pressed && !s.gesture.longPress && !s.gesture.doubleClicked))
  {
    var c := IsClick(s.gesture, button);
    var t := AfterRelease(o, s, button);
    var added := t.events[|s.events|..];
    assert added == [Released(c)] + (if c then [Clicked] else []) +
      (if s.gesture.pressed - {button} == {} && !o.acceptsHover && s.hovered then [Exited] else []);
  }

  /** Release drops the button from the mask; the last release unhovers an owner that ignores hover. */
  lemma ReleaseRemovesButton(o: Owner, s: MouseState, button: Button)
    requires s.gesture.pressed != {}
    ensures var t := AfterRelease(o, s, button);
      t.gesture.pressed == s.gesture.pressed - {button} && button !in t.gesture.pressed &&
      !t.gesture.timer &&
      (t.gesture.pressed == {} && !o.acceptsHover ==> !t.hovered) &&
      (t.gesture.pressed != {} || o.acceptsHover ==> t.hovered == s.hovered)
  {
  }

  /** A double click suppresses the coming click only when a doubleClicked handler is connected. */
  lemma DoubleClickLatch(s: MouseState, connected: bool)
    ensures AfterDoubleClick(s, connected).gesture.doubleClicked <==>
      s.gesture.doubleClicked || (s.gesture.pressed != {} && connected)
    ensures !connected ==> AfterDoubleClick(s, connected) == s
  {
  }

  /** setHovered emits exactly when the flag changes, entered for true and exited for false. */
  lemma HoverSignals(s: MouseState, h: bool)
    ensures var t := AfterSetHovered(s, h);
      t.hovered == h && t.gesture == s.gesture && t.enabled == s.enabled &&
      (s.hovered == h ==> t.events == s.events) &&
      (s.hovered != h ==> t.events == s.events + [if h then Entered else Exited])
  {
  }

  /**
   * The press-and-hold timeout fires only while enabled, pressed and hovered;
   * its long press survives only if the handler accepted it.
   */
  lemma TimerLongPress(s: MouseState, holdTimer: bool, accepted: bool)
    ensures var t := AfterTimer(s, holdTimer, accepted);
      var fires := s.enabled && holdTimer && s.gesture.timer && s.gesture.pressed != {} && s.hovered;
      (fires ==> t.gesture.longPress == accepted && t.events == s.events + [PressAndHold]) &&
      (!fires ==> t.gesture.longPress == s.gesture.longPress && t.events == s.events) &&
      t.gesture.pressed == s.gesture.pressed && t.hovered == s.hovered
  {
  }

  /** setEnabled installs or removes the filter and notifies exactly on an effective change. */
  lemma EnabledRule(o: Owner, s: MouseState, e: bool, host: Host)
    ensures var t := AfterSetEnabled(o, s, e, host);
      (o.buttons != {} ==> t.enabled == e) &&
      (o.buttons == {} ==> t == s) &&
      (t.events != s.events <==> t.enabled != s.enabled)
  {
  }

  /** InverseMouse never handles events addressed to its owner or to mouse areas. */
  lemma InverseSkipsAreas(o: Owner, s: MouseState, excludeOSK: bool, t: Target, ev: InputEvent, r: Response)
    requires t != OtherTarget
    ensures InverseStep(o, s, excludeOSK, t, ev, r) == s
    ensures !InverseStepResult(o, s, excludeOSK, t, ev, r)
  {
  }

  /** A mouse event inside the owner, or over an excluded keyboard, passes through unhandled. */
  lemma InversePassesInside(o: Owner, s: MouseState, excludeOSK: bool, ev: InputEvent, r: Response)
    requires ev.MouseEvent? && (ev.inOwner || (excludeOSK && ev.inOSK))
    ensures InverseStep(o, s, excludeOSK, OtherTarget, ev, r) == s
    ensures !InverseStepResult(o, s, excludeOSK, OtherTarget, ev, r)
  {
  }

  /** Outside the owner, InverseMouse handles a mouse event exactly as Mouse handles one on its owner. */
  lemma InverseHandlesOutside(o: Owner, s: MouseState, excludeOSK: bool, ev: InputEvent, r: Response)
    requires ev.MouseEvent? && !ev.inOwner && !(excludeOSK && ev.inOSK)
    ensures InverseStep(o, s, excludeOSK, OtherTarget, ev, r) == Step(o, s, ev, r)
    ensures InverseStepResult(o, s, excludeOSK, OtherTarget, ev, r) == StepResult(o, s, ev, r)
  {
  }

  // ---------------------------------------------------------------------
  // Composed gestures

  /** The signals appended between two states of one log. */
  function Added(before: MouseState, after: MouseState): seq<Signal>
    requires |before.events| <= |after.events|
  {
    after.events[|before.events|..]
  }

  /** Press and release of one accepted button, with nothing in between, is a click. */
  lemma PressReleaseClicks(o: Owner, s: MouseState, button: Button)
    requires button in o.buttons
    ensures var p := AfterPress(o, s, button);
      var t := AfterRelease(o, p, button);
      |p.events| < |t.events| && Clicked in Added(p, t)
  {
    var p := AfterPress(o, s, button);
    assert button in p.gesture.pressed;
    ReleaseClicks(o, p, button);
  }

  /** With a doubleClicked handler connected, the release that follows a double click is no click. */
  lemma DoubleClickSuppressesClick(o: Owner, s: MouseState, button: Button)
    requires button in o.buttons
    ensures var p := AfterDoubleClick(AfterPress(o, s, button), true);
      var t := AfterRelease(o, p, button);
      |p.events| < |t.events| && Clicked !in Added(p, t)
  {
    var p0 := AfterPress(o, s, button);
    assert button in p0.gesture.pressed;
    var p := AfterDoubleClick(p0, true);
    ReleaseClicks(o, p, button);
  }

  /** A move after the double click cancels the suppression: the release clicks again. */
  lemma MoveRestoresClick(o: Owner, s: MouseState, button: Button)
    requires button in o.buttons
    ensures var p := AfterMove(AfterDoubleClick(AfterPress(o, s, button), true));
      var t := AfterRelease(o, p, button);
      |p.events| < |t.events| && Clicked in Added(p, t)
  {
    var p0 := AfterPress(o, s, button);
    assert button in p0.gesture.pressed;
    var p := AfterMove(AfterDoubleClick(p0, true));
    ReleaseClicks(o, p, button);
  }

  /** An accepted press-and-hold suppresses the click; a declined one lets it through. */
  lemma LongPressSuppressesClick(o: Owner, s: MouseState, button: Button, accepted: bool)
    requires button in o.buttons && s.enabled
    ensures var p := AfterTimer(AfterPress(o, s, button), true, accepted);
      var t := AfterRelease(o, p, button);
      |p.events| < |t.events| && PressAndHold in Added(s, p) &&
      ((Clicked in Added(p, t)) <==> !accepted)
  {
    var p0 := AfterPress(o, s, button);
    assert button in p0.gesture.pressed;
    var p := AfterTimer(p0, true, accepted);
    assert Added(s, p) == Added(s, p0) + [PressAndHold];
    ReleaseClicks(o, p, button);
  }

  // ---------------------------------------------------------------------
  // The filter objects

  class UCMouse {
    const owner: Owner
    var gesture: Gesture
    var hovered: bool
    var enabled: bool
    var events: seq<Signal>

    function State(): MouseState
      reads this
    {
      MouseState(gesture, hovered, enabled, events)
    }

    /** A fresh filter is disabled, not hovered and has no button pressed. */
    constructor (o: Owner)
      ensures owner == o && State() == InitialState
    {
      owner := o;
      gesture := Gesture({}, false, false, false, false);
      hovered, enabled, events := false, false, [];
    }

    method SetHovered(h: bool)
      modifies this`hovered, this`events
      ensures State() == AfterSetHovered(old(State()), h)
    {
      if hovered != h {
        hovered := h;
        events := events + [if h then Entered else Exited];
      }
    }

    method MousePressed(button: Button, r: Response) returns (consumed: bool)
      modifies this`gesture, this`hovered, this`events
      ensures State() == AfterPress(owner, old(State()), button)
      ensures consumed == MouseResult(owner, old(State()), Press, button, r)
    {
      gesture := gesture.(moved := false);
      if button in owner.buttons {
        gesture := gesture.(pressed := gesture.pressed + {button}, longPress := false, doubleClicked := false);
        SetHovered(true);
        events := events + [Pressed];
        gesture := gesture.(timer := true);
        return r.accepted;
      }
      consumed := false;
    }

    method MouseMoved(r: Response) returns (consumed: bool)
      modifies this`gesture, this`hovered, this`events
      ensures State() == AfterMove(old(State()))
      ensures consumed == MouseResult(owner, old(State()), Move, 0, r)
    {
      if gesture.pressed != {} {
        SetHovered(true);
        gesture := gesture.(moved := true, doubleClicked := false);
        events := events + [PositionChanged];
        return r.accepted;
      }
      consumed := false;
    }

    method MouseReleased(button: Button, r: Response) returns (consumed: bool)
      modifies this`gesture, this`hovered, this`events
      ensures State() == AfterRelease(owner, old(State()), button)
      ensures consumed == MouseResult(owner, old(State()), Release, button, r)
    {
      if gesture.pressed != {} {
        gesture := gesture.(timer := false);
        var isClicked := button in gesture.pressed && !gesture.longPress && !gesture.doubleClicked;
        events := events + [Released(isClicked)];
        gesture := gesture.(pressed := gesture.pressed - {button});
        if isClicked {
          events := events + [Clicked];
        }
        if gesture.pressed == {} && !owner.acceptsHover {
          SetHovered(false);
        }
        return r.accepted;
      }
      consumed := false;
    }

    method MouseDoubleClick(r: Response) returns (consumed: bool)
      modifies this`gesture, this`events
      ensures State() == AfterDoubleClick(old(State()), r.doubleClickConnected)
      ensures consumed == MouseResult(owner, old(State()), DoubleClick, 0, r)
    {
      if gesture.pressed != {} {
        var accepted := r.incomingAccepted;
        if r.doubleClickConnected {
          events := events + [DoubleClicked];
          accepted := r.accepted;
          gesture := gesture.(doubleClicked := true);
        }
        return accepted;
      }
      consumed := false;
    }

    /** hoverEntered / hoverMoved / hoverExited never consume the event. */
    method Hover(k: HoverKind) returns (consumed: bool)
      modifies this`hovered, this`events
      ensures State() == AfterHover(old(State()), k) && !consumed
    {
      match k {
        case HoverEnter => SetHovered(true);
        case HoverMove => events := events + [PositionChanged];
        case HoverLeave => SetHovered(false);
      }
      consumed := false;
    }

    method TimerEvent(holdTimer: bool, accepted: bool)
      modifies this`gesture, this`events
      ensures State() == AfterTimer(old(State()), holdTimer, accepted)
    {
      if enabled && holdTimer && gesture.timer {
        gesture := gesture.(timer := false);
        if gesture.pressed != {} && hovered {
          gesture := gesture.(longPress := true);
          events := events + [PressAndHold];
          if !accepted {
            gesture := gesture.(longPress := false);
          }
        }
      }
    }

    /** setEnabled of Mouse installs on `OwnerItem`, that of InverseMouse on the `Application`. */
    method SetEnabled(e: bool, host: Host)
      modifies this`enabled, this`events
      ensures State() == AfterSetEnabled(owner, old(State()), e, host)
    {
      if e != enabled && owner.buttons != {} {
        enabled := e;
        events := events + [if e then FilterInstalled(host) else FilterRemoved(host)];
        events := events + [EnabledChanged];
      }
    }

    /** Delivers a mouse event to its handler. */
    method DeliverMouse(k: MouseKind, button: Button, r: Response) returns (consumed: bool)
      modifies this`gesture, this`hovered, this`events
      ensures State() == AfterMouse(owner, old(State()), k, button, r)
      ensures consumed == MouseResult(owner, old(State()), k, button, r)
    {
      match k
      case Press => consumed := MousePressed(button, r);
      case Release => consumed := MouseReleased(button, r);
      case DoubleClick => consumed := MouseDoubleClick(r);
      case Move => consumed := MouseMoved(r);
    }

    /** UCMouse::eventFilter on the owner. */
    method EventFilter(ev: InputEvent, r: Response) returns (consumed: bool)
      modifies this`gesture, this`hovered, this`events
      ensures State() == Step(owner, old(State()), ev, r)
      ensures consumed == StepResult(owner, old(State()), ev, r)
    {
      match ev
      case MouseEvent(k, b, _, _) => consumed := DeliverMouse(k, b, r);
      case HoverEvent(k) => consumed := Hover(k);
      case OtherEvent => consumed := false;
    }
  }

  class UCInverseMouse {
    const mouse: UCMouse
    var excludeOSK: bool

    constructor (o: Owner)
      ensures fresh(mouse) && mouse.owner == o && mouse.State() == InitialState && !excludeOSK
    {
      mouse := new UCMouse(o);
      excludeOSK := false;
    }

    /** contains(): the point belongs to the inverse area. */
    predicate Contains(inOwner: bool, inOSK: bool)
      reads this
    {
      InverseContains(inOwner, inOSK, excludeOSK)
    }

    method SetExcludeInputArea(v: bool)
      modifies this`excludeOSK, mouse`events
      ensures excludeOSK == v
      ensures mouse.events == old(mouse.events) + (if old(excludeOSK) != v then [ExcludeInputAreaChanged] else [])
    {
      if excludeOSK != v {
        excludeOSK := v;
        mouse.events := mouse.events + [ExcludeInputAreaChanged];
      }
    }

    /** InverseMouse filters the whole application's events. */
    method SetEnabled(e: bool)
      modifies mouse`enabled, mouse`events
      ensures mouse.State() == AfterSetEnabled(mouse.owner, old(mouse.State()), e, Application)
    {
      mouse.SetEnabled(e, Application);
    }

    method EventFilter(t: Target, ev: InputEvent, r: Response) returns (consumed: bool)
      modifies mouse`gesture, mouse`hovered, mouse`events
      ensures mouse.State() == InverseStep(mouse.owner, old(mouse.State()), excludeOSK, t, ev, r)
      ensures consumed == InverseStepResult(mouse.owner, old(mouse.State()), excludeOSK, t, ev, r)
    {
      if t != OtherTarget {
        return false;
      }
      match ev
      case MouseEvent(k, b, inOwner, inOSK) =>
        if !Contains(inOwner, inOSK) {
          return false;
        }
        consumed := mouse.DeliverMouse(k, b, r);
      case HoverEvent(k) => consumed := mouse.Hover(k);
      case OtherEvent => consumed := false;
    }
  }
}
