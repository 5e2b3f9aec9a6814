// The date picker helpers (pickers.py): picking a date moves each of the
// picker's year, month and day columns to the wanted value, scrolling
// towards it and clicking it; a path view is searched by swiping one
// element at a time.
module Pickers {
  import opened Common
  import opened Gestures

  /** Python's `part in s` for strings. */
  predicate Contains(s: string, part: string)
    decreases |s|
  {
    StartsWith(s, part) || (s != [] && Contains(s[1..], part))
  }

  /** Text found at an offset is contained. */
  lemma {:induction false} ContainsAt(s: string, part: string, i: nat)
    requires i + |part| <= |s| && s[i..i + |part|] == part
    ensures Contains(s, part)
    decreases i
  {
    if i > 0 {
      assert s[1..][i - 1..i - 1 + |part|] == s[i..i + |part|];
      ContainsAt(s[1..], part, i - 1);
    }
  }

  /** _is_date_picker: the mode names years, months or days. */
  predicate IsDatePicker(mode: string)
  {
    Contains(mode, "Years") || Contains(mode, "Months") || Contains(mode, "Days")
  }

  datatype ScrollDirection = Above | Below

  /** _pick_date_value's choice: scroll below for a larger value, above for a smaller one, not at all for the same. */
  function ScrollFor(current: int, target: int): (d: Option<ScrollDirection>)
    ensures d == Some(Below) <==> target > current
    ensures d == Some(Above) <==> target < current
    ensures d == None <==> target == current
  {
    if target > current then Some(Below) else if target < current then Some(Above) else None
  }

  /** Python's date, with the month from 1. */
  datatype Date = Date(year: int, month: int, day: int)

  /** A picker label clicked after scrolling in a direction. */
  datatype LabelClick = LabelClick(objectName: string, direction: ScrollDirection)

  /** The label of a value, 'PickerRow_PickerLabel{}'. */
  function LabelName(value: int): string
  {
    "PickerRow_PickerLabel" + IntToString(value)
  }

  /** The clicks _pick_date_value makes to go from `current` to `target`. */
  function ValueClicks(current: int, target: int): (r: seq<LabelClick>)
    ensures |r| <= 1
    ensures r == [] <==> current == target
  {
    match ScrollFor(current, target)
    case None => []
    case Some(d) => [LabelClick(LabelName(target), d)]
  }

  /** The exception text for a picker that does not pick dates, with the mode's repr. */
  function NotADatePicker(mode: string): string
  {
    "Can't pick date. The picker mode is: '" + mode + "'."
  }

  /** The message click_element raises for an element that no search swipe brings into existence. */
  function NotFound(objectName: string): string
  {
    "List element with objectName \"" + objectName + "\" not found."
  }

  /** The two wrap-around columns, whose labels are sought through a path view. */
  datatype Column = MonthColumn | DayColumn

  /** The values of the three columns and the label clicks made so far. */
  datatype PickerState = PickerState(year: int, month: int, day: int, clicks: seq<LabelClick>)

  /**
   * _pick_date_value on a path view: nothing to do for an equal value; a
   * label the search never finds raises; otherwise its label is clicked.
   */
  function PickValue(current: int, target: int, lost: bool): Option<string>
  {
    if current != target && lost then Some(NotFound(LabelName(target))) else None
  }

  /**
   * pick_date: the mode check, then year, month and day in that order, each
   * only when the mode names it. `lost` holds the columns whose target label
   * the path view does not find within `count` swipes; the first such column
   * that needs a click raises, after the columns before it were set.
   */
  function AfterPickDate(mode: string, s: PickerState, date: Date, lost: set<Column>): (Outcome, PickerState)
  {
    if !IsDatePicker(mode) then (Raised(NotADatePicker(mode)), s)
    else
      var s1 := if Contains(mode, "Years")
                then s.(year := date.year, clicks := s.clicks + ValueClicks(s.year, date.year)) else s;
      var m := PickValue(s1.month, date.month - 1, MonthColumn in lost);
      if Contains(mode, "Month") && m.Some? then (Raised(m.value), s1)
      else
        var s2 := if Contains(mode, "Month")
                  then s1.(month := date.month - 1, clicks := s1.clicks + ValueClicks(s1.month, date.month - 1)) else s1;
        var d := PickValue(s2.day - 1, date.day - 1, DayColumn in lost);
        if Contains(mode, "Day") && d.Some? then (Raised(d.value), s2)
        else
          var s3 := if Contains(mode, "Day")
                    then s2.(day := date.day, clicks := s2.clicks + ValueClicks(s2.day - 1, date.day - 1)) else s2;
          (Done, s3)
  }

  /** With every label found, a date picker sets exactly the columns its mode names, each by the click that reaches it. */
  lemma PickDateFound(mode: string, s: PickerState, date: Date)
    requires IsDatePicker(mode)
    ensures var (r, t) := AfterPickDate(mode, s, date, {});
      r == Done &&
      t.year == (if Contains(mode, "Years") then date.year else s.year) &&
      t.month == (if Contains(mode, "Month") then date.month - 1 else s.month) &&
      t.day == (if Contains(mode, "Day") then date.day else s.day) &&
      t.clicks == s.clicks +
        (if Contains(mode, "Years") then ValueClicks(s.year, date.year) else []) +
        (if Contains(mode, "Month") then ValueClicks(s.month, date.month - 1) else []) +
        (if Contains(mode, "Day") then ValueClicks(s.day - 1, date.day - 1) else [])
  {
    // No label is lost, so neither column can raise.
    assert forall c: int, t: int :: PickValue(c, t, false) == None;
    assert MonthColumn !in {} && DayColumn !in {};
  }

  /**
   * A date picker raises exactly when some named column needs a label that is
   * lost, and the message names the first such label; no click is made for it.
   */
  lemma PickDateRaises(mode: string, s: PickerState, date: Date, lost: set<Column>)
    requires IsDatePicker(mode)
    ensures var (r, t) := AfterPickDate(mode, s, date, lost);
      var monthLost := Contains(mode, "Month") && s.month != date.month - 1 && MonthColumn in lost;
      var dayLost := Contains(mode, "Day") && s.day != date.day && DayColumn in lost;
      (r.Raised? <==> monthLost || dayLost) &&
      (monthLost ==> r == Raised(NotFound(LabelName(date.month - 1))) &&
                     t.month == s.month && t.day == s.day) &&
      (!monthLost && dayLost ==> r == Raised(NotFound(LabelName(date.day - 1))) && t.day == s.day)
  {
  }

  class DatePicker {
    const mode: string
    var year: int
    /** The picker's month, from 0. */
    var month: int
    var day: int
    var clicks: seq<LabelClick>

    constructor (m: string, y: int, mo: int, d: int)
      ensures mode == m && year == y && month == mo && day == d && clicks == []
    {
      mode, year, month, day, clicks := m, y, mo, d, [];
    }

    function State(): PickerState
      reads this
    {
      PickerState(year, month, day, clicks)
    }

    /**
     * pick_date: raises unless the mode picks dates; otherwise sets the
     * columns the mode names, the month as date.month - 1, each by the click
     * that reaches it, and raises at the first column whose label is lost.
     */
    method PickDate(date: Date, lost: set<Column>) returns (r: Outcome)
      modifies this`year, this`month, this`day, this`clicks
      ensures (r, State()) == AfterPickDate(mode, old(State()), date, lost)
    {
      if !IsDatePicker(mode) {
        return Raised(NotADatePicker(mode));
      }
      if Contains(mode, "Years") {
        clicks := clicks + ValueClicks(year, date.year);
        year := date.year;
      }
      if Contains(mode, "Month") {
        var m := PickValue(month, date.month - 1, MonthColumn in lost);
        if m.Some? {
          return Raised(m.value);
        }
        clicks := clicks + ValueClicks(month, date.month - 1);
        month := date.month - 1;
      }
      if Contains(mode, "Day") {
        // The current day is read back through get_date, and both sides are taken from 0.
        var d := PickValue(day - 1, date.day - 1, DayColumn in lost);
        if d.Some? {
          return Raised(d.value);
        }
        clicks := clicks + ValueClicks(day - 1, date.day - 1);
        day := date.day;
      }
      r := Done;
    }

    /** get_date: the picker's month is from 0, the date's from 1. */
    method GetDate() returns (d: Date)
      ensures d == Date(year, month + 1, day)
    {
      d := Date(year, month + 1, day);
    }
  }

  /** A picker of years, months and days gives back the date picked. */
  method PickThenGet(date: Date, y: int, m: int, d: int) returns (r: Outcome, got: Date)
    ensures r == Done && got == date
  {
    var mode := "Years|Months|Days";
    ContainsAt(mode, "Years", 0);
    assert mode[6..11] == "Month";
    ContainsAt(mode, "Month", 6);
    assert mode[13..16] == "Day";
    ContainsAt(mode, "Day", 13);
    var picker := new DatePicker(mode, y, m, d);
    r := picker.PickDate(date, {});
    PickDateFound(mode, PickerState(y, m, d, []), date);
    got := picker.GetDate();
  }

  /** A text none of whose characters starts `part` does not contain it. */
  lemma {:induction false} ContainsNeedsFirst(s: string, part: string)
    requires |part| > 0 && forall i :: 0 <= i < |s| ==> s[i] != part[0]
    ensures !Contains(s, part)
    decreases |s|
  {
    if s != [] {
      if |part| <= |s| {
        assert s[..|part|][0] != part[0];
      }
      ContainsNeedsFirst(s[1..], part);
    }
  }

  /** A picker of hours (mode "Hours") does not pick dates. */
  lemma HoursPickerRefused()
    ensures !IsDatePicker("Hours")
  {
    ContainsNeedsFirst("Hours", "Years");
    ContainsNeedsFirst("Hours", "Months");
    ContainsNeedsFirst("Hours", "Days");
  }

  // ---------------------------------------------------------------------
  // QQuickPathView

  /**
   * _swipe_to_show_one_more: a vertical drag through the middle column,
   * one element high around the view's centre: upwards to show one more
   * below, downwards to show one more above. Sizes are whole pixels and
   * `//` floors.
   */
  function SwipeOneMore(x: int, y: int, width: int, height: int, childHeight: int, direction: ScrollDirection): Gesture
  {
    var startX := x + width / 2;
    var centerY := y + height / 2;
    var top := centerY - childHeight / 2;
    var bottom := centerY + childHeight / 2;
    match direction
    case Below => Drag(startX as real, bottom as real, startX as real, top as real)
    case Above => Drag(startX as real, top as real, startX as real, bottom as real)
  }

  /** The two swipes retrace each other; with an element at least 2 high, below drags up and above drags down. */
  lemma SwipesOpposite(x: int, y: int, width: int, height: int, childHeight: int)
    ensures SwipeOneMore(x, y, width, height, childHeight, Above) ==
            Reversed(SwipeOneMore(x, y, width, height, childHeight, Below))
    ensures childHeight >= 2 ==>
      SwipeOneMore(x, y, width, height, childHeight, Below).toY < SwipeOneMore(x, y, width, height, childHeight, Below).fromY
  {
  }

  /** The offset change of one swipe: towards the view from below or from above. */
  function Shift(direction: ScrollDirection): int
  {
    if direction == Below then -1 else 1
  }

  /** The direction strings _find_element accepts. */
  function DirectionOf(direction: string): (d: Option<ScrollDirection>)
    ensures d == Some(Below) <==> direction == "below"
    ensures d == Some(Above) <==> direction == "above"
  {
    if direction == "below" then Some(Below) else if direction == "above" then Some(Above) else None
  }

  /**
   * A path view and one element looked for in it. `childOffset` is where
   * the element is: 0 when visible, k > 0 when k swipes below bring it into
   * view, -k when k swipes above do (its y is then above the view's).
   */
  class PathView {
    const x: int
    const y: int
    const width: int
    const height: int
    const childHeight: int
    const count: nat
    var childOffset: int
    var gestures: seq<Gesture>

    constructor (gx: int, gy: int, w: int, h: int, ch: int, n: nat, offset: int)
      ensures x == gx && y == gy && width == w && height == h && childHeight == ch && count == n
      ensures childOffset == offset && gestures == []
    {
      x, y, width, height, childHeight, count := gx, gy, w, h, ch, n;
      childOffset, gestures := offset, [];
    }

    function OneMore(direction: ScrollDirection): Gesture
      reads this
    {
      SwipeOneMore(x, y, width, height, childHeight, direction)
    }

    /** The swipes swipe_child_into_view makes for an element at `offset`: below while it is below, above while above. */
    function IntoView(offset: int): seq<Gesture>
      reads this
    {
      if offset >= 0 then Repeat(OneMore(Below), offset) else Repeat(OneMore(Above), -offset)
    }

    /** One swipe; the element moves one place towards the view. */
    method SwipeToShowOneMore(direction: ScrollDirection)
      modifies this`childOffset, this`gestures
      ensures gestures == old(gestures) + [OneMore(direction)]
      ensures childOffset == old(childOffset) + Shift(direction)
    {
      gestures := gestures + [OneMore(direction)];
      childOffset := childOffset + Shift(direction);
    }

    /**
     * _find_element: up to `count` times, a swipe in the given direction,
     * after which the element may be found (`foundAfter`, the number of
     * swipes after which it exists); an unknown direction raises at the
     * first round, before any swipe.
     */
    method FindElement(objectName: string, direction: string, foundAfter: Option<nat>) returns (r: Outcome, swipes: nat)
      modifies this`childOffset, this`gestures
      ensures swipes <= count && |gestures| == |old(gestures)| + swipes
      ensures count > 0 && DirectionOf(direction).None? ==>
        r == Raised("Invalid direction: " + direction) && swipes == 0
      ensures DirectionOf(direction).Some? && foundAfter.Some? && 1 <= foundAfter.value <= count ==>
        r == Done && swipes == foundAfter.value
      ensures (count == 0 || DirectionOf(direction).Some?) &&
              !(foundAfter.Some? && 1 <= foundAfter.value <= count) ==>
        r == Raised(NotFound(objectName)) && swipes == count
      ensures DirectionOf(direction).Some? ==>
        gestures == old(gestures) + Repeat(OneMore(DirectionOf(direction).value), swipes) &&
        childOffset == old(childOffset) + swipes * Shift(DirectionOf(direction).value)
      ensures DirectionOf(direction).None? ==> gestures == old(gestures) && childOffset == old(childOffset)
    {
      swipes := 0;
      for index := 0 to count
        invariant swipes == index
        invariant |gestures| == |old(gestures)| + swipes
        invariant DirectionOf(direction).Some? ==>
          gestures == old(gestures) + Repeat(OneMore(DirectionOf(direction).value), swipes) &&
          childOffset == old(childOffset) + swipes * Shift(DirectionOf(direction).value)
        invariant DirectionOf(direction).None? ==> gestures == old(gestures) && childOffset == old(childOffset)
        invariant foundAfter.Some? && 1 <= foundAfter.value ==> swipes < foundAfter.value
        invariant index > 0 ==> DirectionOf(direction).Some?
      {
        var swipeDirection;
        if direction == "below" {
          swipeDirection := Below;
        } else if direction == "above" {
          swipeDirection := Above;
        } else {
          return Raised("Invalid direction: " + direction), swipes;
        }
        SwipeToShowOneMore(swipeDirection);
        swipes := swipes + 1;
        if foundAfter == Some(swipes) {
          return Done, swipes;
        }
      }
      r := Raised(NotFound(objectName));
    }

    /**
     * swipe_child_into_view: no swipe for a visible element; otherwise
     * swipes above while it is above the view and below while it is below,
     * until it shows.
     */
    method SwipeChildIntoView()
      modifies this`childOffset, this`gestures
      ensures childOffset == 0
      ensures gestures == old(gestures) + IntoView(old(childOffset))
    {
      ghost var start := childOffset;
      while childOffset != 0
        invariant start >= 0 ==> 0 <= childOffset <= start &&
                                 gestures == old(gestures) + Repeat(OneMore(Below), start - childOffset)
        invariant start < 0 ==> start <= childOffset <= 0 &&
                                gestures == old(gestures) + Repeat(OneMore(Above), childOffset - start)
        decreases if childOffset < 0 then -childOffset else childOffset
      {
        if childOffset < 0 {
          SwipeToShowOneMore(Above);
        } else {
          SwipeToShowOneMore(Below);
        }
      }
    }

    /**
     * click_element: an element not yet created is searched for first,
     * which may raise; then it is swiped into view and clicked.
     */
    method ClickElement(objectName: string, direction: string, foundAfter: Option<nat>) returns (r: Outcome)
      modifies this`childOffset, this`gestures
      ensures foundAfter == Some(0) ==>
        r == Done && childOffset == 0 && gestures == old(gestures) + IntoView(old(childOffset)) + [Click(objectName)]
      ensures foundAfter != Some(0) && count > 0 && DirectionOf(direction).None? ==>
        r == Raised("Invalid direction: " + direction) &&
        gestures == old(gestures) && childOffset == old(childOffset)
      ensures foundAfter != Some(0) && DirectionOf(direction).Some? && foundAfter.Some? && foundAfter.value <= count ==>
        var d := DirectionOf(direction).value;
        var k := foundAfter.value;
        r == Done && childOffset == 0 &&
        gestures == old(gestures) + Repeat(OneMore(d), k) + IntoView(old(childOffset) + k * Shift(d)) + [Click(objectName)]
      ensures foundAfter != Some(0) && (count == 0 || DirectionOf(direction).Some?) &&
              !(foundAfter.Some? && foundAfter.value <= count) ==>
        r == Raised(NotFound(objectName)) &&
        (DirectionOf(direction).Some? ==>
           gestures == old(gestures) + Repeat(OneMore(DirectionOf(direction).value), count) &&
           childOffset == old(childOffset) + count * Shift(DirectionOf(direction).value)) &&
        (DirectionOf(direction).None? ==> gestures == old(gestures) && childOffset == old(childOffset))
    {
      if foundAfter != Some(0) {
        var swipes;
        r, swipes := FindElement(objectName, direction, foundAfter);
        if r != Done {
          return r;
        }
      }
      SwipeChildIntoView();
      gestures := gestures + [Click(objectName)];
      r := Done;
    }
  }

  /** An element three places above the view is brought in by three swipes above. */
  method ThreeAbove() returns (moves: seq<Gesture>)
    ensures |moves| == 3 && forall i :: 0 <= i < 3 ==> moves[i] == SwipeOneMore(0, 0, 100, 300, 50, Above)
  {
    var view := new PathView(0, 0, 100, 300, 50, 12, -3);
    view.SwipeChildIntoView();
    moves := view.gestures;
  }
}
