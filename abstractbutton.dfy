// AbstractButton (ucabstractbutton.cpp): a button whose internal mouse area
// fills it, grown through negative anchor margins to a sensing area of at
// least 4x4 grid units, and which turns mouse clicks, long presses and the
// Enter, Return and Space keys into its clicked and pressAndHold signals.
module AbstractButton {
  import opened Common
  import Units

  /** MIN_SENSING_WIDTH_GU and MIN_SENSING_HEIGHT_GU. */
  const MinSensingWidthGu: real := 4.0
  const MinSensingHeightGu: real := 4.0

  /** Four margins: the sensingMargins group, or the mouse area's anchor margins. */
  datatype Margins = Margins(left: real, right: real, top: real, bottom: real)

  const NoMargins := Margins(0.0, 0.0, 0.0, 0.0)

  /** The anchor margins of one direction: towards the start and towards the end. */
  datatype Span = Span(low: real, high: real)

  /**
   * One direction of _q_adjustSensingArea. `deficit` is the minimum less the
   * size grown by the sensing margins (when they exist); a non-negative
   * deficit is shared evenly between both sides, otherwise the anchors are
   * the negated sensing margins, or stay as they were without them.
   */
  function AdjustedSpan(current: Span, sensing: Option<Span>, size: real, minimum: real): Span
  {
    var low := if sensing.Some? then sensing.value.low else 0.0;
    var high := if sensing.Some? then sensing.value.high else 0.0;
    var deficit := minimum - (size + (low + high));
    if deficit >= 0.0 then Span(-(deficit / 2.0 + low), -(deficit / 2.0 + high))
    else if sensing.Some? then Span(-low, -high)
    else current
  }

  /** How far the mouse area reaches in one direction: the size grown by the negated anchors. */
  function Reach(size: real, anchors: Span): real
  {
    size - anchors.low - anchors.high
  }

  /**
   * After the adjustment the sensing area is the minimum when the item and
   * its margins fall short, with the deficit shared evenly between both
   * sides; otherwise it is the item grown by its margins.
   */
  lemma AdjustedSpanReach(current: Span, sensing: Option<Span>, size: real, minimum: real)
    ensures var low := if sensing.Some? then sensing.value.low else 0.0;
      var high := if sensing.Some? then sensing.value.high else 0.0;
      var grown := size + low + high;
      var r := AdjustedSpan(current, sensing, size, minimum);
      (grown <= minimum ==> Reach(size, r) == minimum && -r.low - low == -r.high - high == (minimum - grown) / 2.0) &&
      (grown > minimum && sensing.Some? ==> r == Span(-low, -high) && Reach(size, r) == grown) &&
      (grown > minimum && sensing.None? ==> r == current)
  {
  }

  /** With sensing margins the reach is the larger of the minimum and the grown item. */
  lemma AdjustedSpanIsMax(current: Span, sensing: Span, size: real, minimum: real)
    ensures Reach(size, AdjustedSpan(current, Some(sensing), size, minimum)) ==
            MaxR(minimum, size + sensing.low + sensing.high)
  {
    AdjustedSpanReach(current, Some(sensing), size, minimum);
  }

  /** Adjusting twice gives the same anchors as adjusting once. */
  lemma AdjustedSpanIdempotent(current: Span, sensing: Option<Span>, size: real, minimum: real)
    ensures AdjustedSpan(AdjustedSpan(current, sensing, size, minimum), sensing, size, minimum) ==
            AdjustedSpan(current, sensing, size, minimum)
  {
  }

  function Horizontal(m: Margins): Span { Span(m.left, m.right) }
  function Vertical(m: Margins): Span { Span(m.top, m.bottom) }

  function HorizontalOf(m: Option<Margins>): Option<Span>
  {
    if m.Some? then Some(Horizontal(m.value)) else None
  }

  function VerticalOf(m: Option<Margins>): Option<Span>
  {
    if m.Some? then Some(Vertical(m.value)) else None
  }

  /** _q_adjustSensingArea after completion: both directions adjusted independently. */
  function AdjustedAnchors(anchors: Margins, sensing: Option<Margins>, width: real, height: real,
                           minimumWidth: real, minimumHeight: real): (r: Margins)
    ensures Span(r.left, r.right) == AdjustedSpan(Horizontal(anchors), HorizontalOf(sensing), width, minimumWidth)
    ensures Span(r.top, r.bottom) == AdjustedSpan(Vertical(anchors), VerticalOf(sensing), height, minimumHeight)
  {
    var h := AdjustedSpan(Horizontal(anchors), HorizontalOf(sensing), width, minimumWidth);
    var v := AdjustedSpan(Vertical(anchors), VerticalOf(sensing), height, minimumHeight);
    Margins(h.low, h.high, v.low, v.high)
  }

  /** An item of 2x2 grid units at 8 pixels per unit, with no margins, senses 4x4 units: 8 pixels more on each side. */
  lemma SmallIconGrows()
    ensures AdjustedAnchors(NoMargins, None, 16.0, 16.0, 32.0, 32.0) == Margins(-8.0, -8.0, -8.0, -8.0)
  {
  }

  /**
   * The example of sensingMargins' own description: a 2x2 unit item with
   * margins of 1 unit left and 2 units right senses 5 units across and the
   * 4-unit minimum vertically.
   */
  lemma ExtendedExample(units: real)
    requires units > 0.0
    ensures var r := AdjustedAnchors(NoMargins, Some(Margins(units, 2.0 * units, 0.0, 0.0)),
                                    2.0 * units, 2.0 * units, 4.0 * units, 4.0 * units);
      Reach(2.0 * units, Span(r.left, r.right)) == 5.0 * units &&
      Reach(2.0 * units, Span(r.top, r.bottom)) == 4.0 * units
  {
    AdjustedSpanReach(Span(0.0, 0.0), Some(Span(units, 2.0 * units)), 2.0 * units, 4.0 * units);
    AdjustedSpanReach(Span(0.0, 0.0), Some(Span(0.0, 0.0)), 2.0 * units, 4.0 * units);
  }

  /** keyReleaseEvent: the keys that click. */
  predicate IsActivationKey(key: int)
  {
    key == KeyEnter || key == KeyReturn || key == KeySpace
  }

  /** What the button emits: the haptic feedback, the QML trigger() call, and its two signals. */
  datatype ButtonEvent = HapticsPlayed | TriggerInvoked | Clicked | PressAndHold

  /** onClicked: the overridden trigger first, then clicked. */
  const ClickEvents: seq<ButtonEvent> := [TriggerInvoked, Clicked]

  class UCAbstractButton {
    var acceptEvents: bool
    var pressAndHoldConnected: bool
    var componentComplete: bool
    var width: real
    var height: real
    var sensingMargins: Option<Margins>
    /** The mouse area's anchor margins; it fills the button. */
    var anchors: Margins
    var events: seq<ButtonEvent>

    constructor ()
      ensures acceptEvents && !pressAndHoldConnected && !componentComplete
      ensures width == 0.0 && height == 0.0 && sensingMargins == None && anchors == NoMargins && events == []
    {
      acceptEvents, pressAndHoldConnected, componentComplete := true, false, false;
      width, height := 0.0, 0.0;
      sensingMargins, anchors, events := None, NoMargins, [];
    }

    /** keyReleaseEvent: Enter, Return and Space click, whatever acceptEvents says; other keys do nothing. */
    method KeyRelease(key: int)
      modifies this`events
      ensures IsActivationKey(key) ==> events == old(events) + ClickEvents
      ensures !IsActivationKey(key) ==> events == old(events)
    {
      if key == KeyEnter || key == KeyReturn || key == KeySpace {
        events := events + [TriggerInvoked, Clicked];
      }
    }

    /** _q_mouseAreaClicked: dropped without acceptEvents; otherwise haptics, then onClicked. */
    method MouseAreaClicked()
      modifies this`events
      ensures acceptEvents ==> events == old(events) + [HapticsPlayed] + ClickEvents
      ensures !acceptEvents ==> events == old(events)
    {
      if !acceptEvents {
        return;
      }
      events := events + [HapticsPlayed];
      events := events + [TriggerInvoked, Clicked];
    }

    /** _q_mouseAreaPressAndHold, which the mouse area reaches only while connected: dropped without acceptEvents. */
    method MouseAreaPressAndHold()
      modifies this`events
      ensures acceptEvents ==> events == old(events) + [PressAndHold]
      ensures !acceptEvents ==> events == old(events)
    {
      if !acceptEvents {
        return;
      }
      events := events + [PressAndHold];
    }

    /**
     * _q_mouseAreaPressed. `pressed` is the mouse area's pressed state and
     * `handlerConnected` whether something listens to pressAndHold; on a
     * press the forwarding connection is made or dropped to match.
     */
    method MouseAreaPressed(pressed: bool, handlerConnected: bool)
      modifies this`pressAndHoldConnected
      ensures pressed ==> pressAndHoldConnected == handlerConnected
      ensures !pressed ==> pressAndHoldConnected == old(pressAndHoldConnected)
    {
      if !pressed {
        return;
      }
      if handlerConnected && !pressAndHoldConnected {
        pressAndHoldConnected := true;
      } else if !handlerConnected && pressAndHoldConnected {
        pressAndHoldConnected := false;
      }
    }

    method SetAcceptEvents(value: bool)
      modifies this`acceptEvents
      ensures acceptEvents == value
    {
      acceptEvents := value;
    }

    /** The sensing minimum, gu(4) in each direction, from the units object. */
    static function MinimumSensing(units: Units.UCUnits, gu: real): real
      requires units.Valid()
      reads units
    {
      Units.GridUnits(units.gridUnit, units.devicePixelRatio, gu)
    }

    /** _q_adjustSensingArea: nothing before completion; then both directions adjusted. */
    method AdjustSensingArea(units: Units.UCUnits)
      requires units.Valid()
      modifies this`anchors
      ensures !componentComplete ==> anchors == old(anchors)
      ensures componentComplete ==>
        anchors == AdjustedAnchors(old(anchors), sensingMargins, width, height,
                                   MinimumSensing(units, MinSensingWidthGu), MinimumSensing(units, MinSensingHeightGu))
    {
      if !componentComplete {
        return;
      }
      var minimumWidth := Units.GridUnits(units.gridUnit, units.devicePixelRatio, MinSensingWidthGu);
      var minimumHeight := Units.GridUnits(units.gridUnit, units.devicePixelRatio, MinSensingHeightGu);
      var low := if sensingMargins.Some? then sensingMargins.value.left else 0.0;
      var high := if sensingMargins.Some? then sensingMargins.value.right else 0.0;
      var hDelta := minimumWidth - (width + (low + high));
      if hDelta >= 0.0 {
        anchors := anchors.(left := -(hDelta / 2.0 + low), right := -(hDelta / 2.0 + high));
      } else if sensingMargins.Some? {
        anchors := anchors.(left := -low, right := -high);
      }
      low := if sensingMargins.Some? then sensingMargins.value.top else 0.0;
      high := if sensingMargins.Some? then sensingMargins.value.bottom else 0.0;
      var vDelta := minimumHeight - (height + (low + high));
      if vDelta >= 0.0 {
        anchors := anchors.(top := -(vDelta / 2.0 + low), bottom := -(vDelta / 2.0 + high));
      } else if sensingMargins.Some? {
        anchors := anchors.(top := -low, bottom := -high);
      }
    }

    /** completeComponentInitialization: the sensing area is adjusted once complete. */
    method ComponentComplete(units: Units.UCUnits)
      requires units.Valid()
      modifies this`componentComplete, this`anchors
      ensures componentComplete
      ensures anchors == AdjustedAnchors(old(anchors), sensingMargins, width, height,
                                         MinimumSensing(units, MinSensingWidthGu), MinimumSensing(units, MinSensingHeightGu))
    {
      componentComplete := true;
      AdjustSensingArea(units);
    }

    /** geometryChanged: the new size, then the sensing area adjusted to it. */
    method GeometryChanged(newWidth: real, newHeight: real, units: Units.UCUnits)
      requires units.Valid()
      modifies this`width, this`height, this`anchors
      ensures width == newWidth && height == newHeight
      ensures !componentComplete ==> anchors == old(anchors)
      ensures componentComplete ==>
        anchors == AdjustedAnchors(old(anchors), sensingMargins, newWidth, newHeight,
                                   MinimumSensing(units, MinSensingWidthGu), MinimumSensing(units, MinSensingHeightGu))
    {
      width, height := newWidth, newHeight;
      AdjustSensingArea(units);
    }

    /**
     * Setting the sensing margins (the group is created on first use, all
     * zero): each change re-runs the adjustment.
     */
    method SetSensingMargins(margins: Margins, units: Units.UCUnits)
      requires units.Valid()
      modifies this`sensingMargins, this`anchors
      ensures sensingMargins == Some(margins)
      ensures !componentComplete ==> anchors == old(anchors)
      ensures componentComplete ==>
        anchors == AdjustedAnchors(old(anchors), Some(margins), width, height,
                                   MinimumSensing(units, MinSensingWidthGu), MinimumSensing(units, MinSensingHeightGu))
    {
      sensingMargins := Some(margins);
      AdjustSensingArea(units);
    }
  }

  /** With acceptEvents off, mouse clicks and long presses are dropped while the Enter key still clicks. */
  method DisabledButtonKeyStillClicks() returns (afterMouse: seq<ButtonEvent>, afterKey: seq<ButtonEvent>)
    ensures afterMouse == [] && afterKey == ClickEvents
  {
    var button := new UCAbstractButton();
    button.SetAcceptEvents(false);
    button.MouseAreaClicked();
    button.MouseAreaPressAndHold();
    afterMouse := button.events;
    button.KeyRelease(KeyEnter);
    afterKey := button.events;
  }
}
