// The autopilot emulators (emulators.py): helpers a test uses to drive the
// toolbar, the tabs of a MainView, check boxes and removable list items.
// Each helper reads a property of the application, acts only when the
// property is not yet what it wants, and then waits for the application to
// answer; here the application answers as the component is meant to (the
// toolbar opens once dragged open, a clicked tab button becomes the
// selected tab, a clicked check box toggles).
module Emulators {
  import opened Common
  import opened Gestures

  // ---------------------------------------------------------------------
  // Toolbar

  /** _drag_to_open: up the vertical middle line, from the last row to the top. */
  function DragToOpen(r: Rect): Gesture
  {
    var lineX := r.x + r.width * 0.5;
    Drag(lineX, r.y + r.height - 1.0, lineX, r.y)
  }

  /** _drag_to_close: down the same line, from the top to the last row. */
  function DragToClose(r: Rect): Gesture
  {
    var lineX := r.x + r.width * 0.5;
    Drag(lineX, r.y, lineX, r.y + r.height - 1.0)
  }

  /**
   * Closing retraces the opening drag backwards, along the toolbar's middle;
   * a toolbar taller than one pixel is opened upwards.
   */
  lemma ToolbarDrags(r: Rect)
    ensures DragToClose(r) == Reversed(DragToOpen(r))
    ensures r.width >= 0.0 ==> WithinColumns(DragToOpen(r), r)
    ensures r.height > 1.0 ==> DragToOpen(r).toY < DragToOpen(r).fromY
  {
  }

  class Toolbar {
    var isOpened: bool
    const rect: Rect
    var gestures: seq<Gesture>

    constructor (initiallyOpened: bool, r: Rect)
      ensures isOpened == initiallyOpened && rect == r && gestures == []
    {
      isOpened, rect, gestures := initiallyOpened, r, [];
    }

    /** open: drags only when not opened; afterwards the toolbar is open. */
    method Open()
      modifies this`isOpened, this`gestures
      ensures isOpened
      ensures gestures == old(gestures) + (if old(isOpened) then [] else [DragToOpen(rect)])
    {
      if !isOpened {
        gestures := gestures + [DragToOpen(rect)];
        isOpened := true;
      }
    }

    /** close: drags only when opened; afterwards the toolbar is closed. */
    method Close()
      modifies this`isOpened, this`gestures
      ensures !isOpened
      ensures gestures == old(gestures) + (if old(isOpened) then [DragToClose(rect)] else [])
    {
      if isOpened {
        gestures := gestures + [DragToClose(rect)];
        isOpened := false;
      }
    }

    /**
     * click_button: a missing button and a closed toolbar raise before any
     * gesture; otherwise the pointer moves to the button, the toolbar is
     * reopened if it closed meanwhile (`closesMeanwhile`, its timer), and the
     * button is clicked.
     */
    method ClickButton(objectName: string, buttons: set<string>, closesMeanwhile: bool) returns (r: Outcome)
      modifies this`isOpened, this`gestures
      ensures objectName !in buttons ==>
        r == Raised("Button with objectName \"" + objectName + "\" not found.") &&
        gestures == old(gestures) && isOpened == old(isOpened)
      ensures objectName in buttons && !old(isOpened) ==>
        r == Raised("Toolbar must be opened before calling click_button().") &&
        gestures == old(gestures) && !isOpened
      ensures objectName in buttons && old(isOpened) ==>
        r == Done && isOpened &&
        gestures == old(gestures) + [MoveTo(objectName)] +
                    (if closesMeanwhile then [DragToOpen(rect)] else []) + [Click(objectName)]
    {
      if objectName !in buttons {
        return Raised("Button with objectName \"" + objectName + "\" not found.");
      }
      if !isOpened {
        return Raised("Toolbar must be opened before calling click_button().");
      }
      gestures := gestures + [MoveTo(objectName)];
      if closesMeanwhile {
        isOpened := false;
      }
      Open();
      gestures := gestures + [Click(objectName)];
      r := Done;
    }
  }

  /** Opening twice drags once; closing a closed toolbar does not drag. */
  method OpenTwiceCloseTwice(r: Rect) returns (drags: seq<Gesture>)
    ensures drags == [DragToOpen(r), DragToClose(r)]
  {
    var toolbar := new Toolbar(false, r);
    toolbar.Open();
    toolbar.Open();
    toolbar.Close();
    toolbar.Close();
    drags := toolbar.gestures;
  }

  // ---------------------------------------------------------------------
  // Tabs

  /** The TabBar's next button: (current + 1) % count. */
  function NextIndex(current: nat, count: nat): (r: nat)
    requires current < count
    ensures r < count
    ensures current + 1 < count ==> r == current + 1
    ensures current + 1 == count ==> r == 0
  {
    (current + 1) % count
  }

  /** How many steps forward, going round, lead from `from` to `to`. */
  function StepsForward(from: nat, to: nat, count: nat): (d: nat)
    requires from < count && to < count
    ensures d < count
    ensures from + d == to || from + d == to + count
  {
    if to >= from then to - from else to + count - from
  }

  /** The index `steps` steps forward from `from`, going round. */
  function Advance(from: nat, steps: nat, count: nat): (r: nat)
    requires from < count && steps < count
    ensures r < count
    ensures r == from + steps || r == from + steps - count
  {
    if from + steps < count then from + steps else from + steps - count
  }

  /** Going forward by fewer steps than the distance never reaches the target; by exactly the distance does. */
  lemma AdvanceReaches(from: nat, to: nat, steps: nat, count: nat)
    requires from < count && to < count && steps < count
    ensures Advance(from, steps, count) == to <==> steps == StepsForward(from, to, count)
  {
  }

  datatype TabBarTarget = TabBarItself | TabButton(index: nat)

  /** The tab buttons clicked by n next-tab switches from tab `from`: one per switch, each the next tab. */
  function TabButtonClicks(from: nat, n: nat, count: nat): (r: seq<TabBarTarget>)
    requires from < count && n < count
    ensures |r| == n
  {
    if n == 0 then [] else TabButtonClicks(from, n - 1, count) + [TabButton(Advance(from, n, count))]
  }

  /** A MainView's tabs, its tab bar and the clicks the emulators make on them. */
  class TabsView {
    const count: nat
    var selected: nat
    var selectionMode: bool
    var clicks: seq<TabBarTarget>

    predicate Valid()
      reads this
    {
      selected < count
    }

    constructor (n: nat, index: nat)
      requires index < n
      ensures Valid() && count == n && selected == index && !selectionMode && clicks == []
    {
      count, selected, selectionMode, clicks := n, index, false, [];
    }

    /**
     * TabBar.switch_to_next_tab: the bar is clicked into selection mode unless
     * already in it, then the next tab button is clicked, which selects it.
     */
    method SwitchToNextTab()
      requires Valid()
      modifies this`selected, this`selectionMode, this`clicks
      ensures Valid() && selectionMode
      ensures selected == NextIndex(old(selected), count)
      ensures clicks == old(clicks) + (if old(selectionMode) then [] else [TabBarItself]) + [TabButton(selected)]
    {
      if !selectionMode {
        clicks := clicks + [TabBarItself];
        selectionMode := true;
      }
      var next := NextIndex(selected, count);
      clicks := clicks + [TabButton(next)];
      selected := next;
    }

    /**
     * MainView.switch_to_tab_by_index: an index past the last tab raises;
     * otherwise next-tab switches are made until the tab is selected, and
     * once count - 1 of them have not reached it, the helper gives up.
     */
    method SwitchToTabByIndex(index: int) returns (r: Outcome, switches: nat)
      requires Valid()
      modifies this`selected, this`selectionMode, this`clicks
      ensures Valid()
      ensures index >= count ==> r == Raised("Tab index out of range.") && switches == 0 && selected == old(selected)
      ensures 0 <= index < count ==>
        r == Done && selected == index && switches == StepsForward(old(selected), index, count)
      ensures index < 0 ==>
        r == Raised("The tab with index " + IntToString(index) + " was not selected.") && switches == count - 1
      ensures switches < count
      ensures selectionMode == (old(selectionMode) || switches > 0)
      ensures clicks == old(clicks) + (if old(selectionMode) || switches == 0 then [] else [TabBarItself]) +
        TabButtonClicks(old(selected), switches, count)
    {
      if index >= count {
        return Raised("Tab index out of range."), 0;
      }
      ghost var start := selected;
      switches := 0;
      while selected != index
        invariant Valid() && switches < count
        invariant selected == Advance(start, switches, count)
        invariant 0 <= index ==> switches <= StepsForward(start, index, count)
        invariant selectionMode == (old(selectionMode) || switches > 0)
        invariant clicks == old(clicks) + (if old(selectionMode) || switches == 0 then [] else [TabBarItself]) +
          TabButtonClicks(start, switches, count)
        decreases count - switches
      {
        if switches >= count - 1 {
          if 0 <= index {
            AdvanceReaches(start, index, switches, count);
          }
          return Raised("The tab with index " + IntToString(index) + " was not selected."), switches;
        }
        if 0 <= index {
          AdvanceReaches(start, index, switches, count);
        }
        SwitchToNextTab();
        switches := switches + 1;
      }
      if 0 <= index {
        AdvanceReaches(start, index, switches, count);
      } else {
        assert false;
      }
      r := Done;
    }

    /** switch_to_previous_tab: the previous index, the last one before the first. */
    method SwitchToPreviousTab() returns (r: Outcome, switches: nat)
      requires Valid()
      modifies this`selected, this`selectionMode, this`clicks
      ensures Valid() && r == Done
      ensures selected == if old(selected) == 0 then count - 1 else old(selected) - 1
      ensures switches == count - 1
    {
      var previous := if selected == 0 then count - 1 else selected - 1;
      r, switches := SwitchToTabByIndex(previous);
    }
  }

  /** Asking for the selected tab switches nothing and clicks nothing. */
  method SelectedTabNoSwitch() returns (switches: nat, clicks: seq<TabBarTarget>)
    ensures switches == 0 && clicks == []
  {
    var tabs := new TabsView(4, 2);
    var r;
    r, switches := tabs.SwitchToTabByIndex(2);
    clicks := tabs.clicks;
  }

  // ---------------------------------------------------------------------
  // CheckBox

  class CheckBox {
    var checked: bool
    var clicks: nat

    constructor (isChecked: bool)
      ensures checked == isChecked && clicks == 0
    {
      checked, clicks := isChecked, 0;
    }

    /** change_state: one click, then the negated state. */
    method ChangeState()
      modifies this
      ensures checked == !old(checked) && clicks == old(clicks) + 1
    {
      clicks := clicks + 1;
      checked := !checked;
    }

    /** check: clicks only an unchecked box. */
    method Check()
      modifies this
      ensures checked && clicks == old(clicks) + (if old(checked) then 0 else 1)
    {
      if !checked {
        ChangeState();
      }
    }

    /** uncheck: clicks only a checked box. */
    method Uncheck()
      modifies this
      ensures !checked && clicks == old(clicks) + (if old(checked) then 1 else 0)
    {
      if checked {
        ChangeState();
      }
    }
  }

  /** Checking twice and unchecking twice clicks twice in all. */
  method CheckTwiceUncheckTwice() returns (checked: bool, clicks: nat)
    ensures !checked && clicks == 2
  {
    var box := new CheckBox(false);
    box.Check();
    box.Check();
    box.Uncheck();
    box.Uncheck();
    checked, clicks := box.checked, box.clicks;
  }

  // ---------------------------------------------------------------------
  // Removable list items (Empty)

  /** The right swipe as written: from an eighth in, to the item's width taken as an absolute x. */
  function SwipeRightAsWritten(r: Rect): Gesture
  {
    Drag(r.x + r.width / 8.0, r.y + r.height / 2.0, r.width, r.y + r.height / 2.0)
  }

  /** The left swipe as written: from nine tenths of the width taken as an absolute x, to the item's left edge. */
  function SwipeLeftAsWritten(r: Rect): Gesture
  {
    Drag(r.width - r.width * 0.1, r.y + r.height / 2.0, r.x, r.y + r.height / 2.0)
  }

  /** The right swipe measured from the item's own left edge. */
  function SwipeRight(r: Rect): Gesture
  {
    Drag(r.x + r.width / 8.0, r.y + r.height / 2.0, r.x + r.width, r.y + r.height / 2.0)
  }

  /** The left swipe measured from the item's own left edge. */
  function SwipeLeft(r: Rect): Gesture
  {
    Drag(r.x + r.width - r.width * 0.1, r.y + r.height / 2.0, r.x, r.y + r.height / 2.0)
  }

  /** An item 80 wide at x = 100 is swiped the wrong way in both directions by the helper as written. */
  lemma SwipesAsWrittenReversed()
    ensures var r := Rect(100.0, 0.0, 80.0, 40.0);
      SwipeRightAsWritten(r).toX < SwipeRightAsWritten(r).fromX &&
      SwipeLeftAsWritten(r).toX > SwipeLeftAsWritten(r).fromX
  {
  }

  /** Measured from the item's edge, a swipe goes the direction it names and stays on the item, wherever the item is. */
  lemma SwipesGoTheirWay(r: Rect)
    requires r.width > 0.0
    ensures SwipeRight(r).toX > SwipeRight(r).fromX && WithinColumns(SwipeRight(r), r)
    ensures SwipeLeft(r).toX < SwipeLeft(r).fromX && WithinColumns(SwipeLeft(r), r)
  {
  }

  /** Both versions agree for an item at the left edge of the screen. */
  lemma SwipesAgreeAtOrigin(r: Rect)
    requires r.x == 0.0
    ensures SwipeRightAsWritten(r) == SwipeRight(r) && SwipeLeftAsWritten(r) == SwipeLeft(r)
  {
  }

  class ListItemEmpty {
    const objectName: string
    const removable: bool
    const rect: Rect
    var waitingConfirmationForRemoval: bool
    var implicitHeight: real
    var gestures: seq<Gesture>

    constructor (name: string, canRemove: bool, r: Rect, height: real)
      ensures objectName == name && removable == canRemove && rect == r && implicitHeight == height
      ensures !waitingConfirmationForRemoval && gestures == []
    {
      objectName, removable, rect, implicitHeight := name, canRemove, r, height;
      waitingConfirmationForRemoval, gestures := false, [];
    }

    /**
     * swipe_to_delete: an item that is not removable, or an unknown
     * direction, raises without a gesture; otherwise the swipe is made and
     * the item then waits for the removal to be confirmed.
     */
    method SwipeToDelete(direction: string) returns (r: Outcome)
      modifies this`waitingConfirmationForRemoval, this`gestures
      ensures !removable ==>
        r == Raised("The item \"" + objectName + "\" is not removable") &&
        gestures == old(gestures) && waitingConfirmationForRemoval == old(waitingConfirmationForRemoval)
      ensures removable && direction != "right" && direction != "left" ==>
        r == Raised("Invalid direction \"" + direction + "\" used on swipe to delete function") &&
        gestures == old(gestures) && waitingConfirmationForRemoval == old(waitingConfirmationForRemoval)
      ensures removable && direction == "right" ==>
        r == Done && gestures == old(gestures) + [SwipeRight(rect)] && waitingConfirmationForRemoval
      ensures removable && direction == "left" ==>
        r == Done && gestures == old(gestures) + [SwipeLeft(rect)] && waitingConfirmationForRemoval
    {
      if !removable {
        return Raised("The item \"" + objectName + "\" is not removable");
      }
      if direction == "right" {
        gestures := gestures + [SwipeRight(rect)];
      } else if direction == "left" {
        gestures := gestures + [SwipeLeft(rect)];
      } else {
        return Raised("Invalid direction \"" + direction + "\" used on swipe to delete function");
      }
      waitingConfirmationForRemoval := true;
      r := Done;
    }

    /** confirm_removal: only a swiped item is confirmed, by clicking its dialog; it then collapses. */
    method ConfirmRemoval() returns (r: Outcome)
      modifies this`implicitHeight, this`gestures
      ensures waitingConfirmationForRemoval ==>
        r == Done && implicitHeight == 0.0 && gestures == old(gestures) + [Click("confirmRemovalDialog")]
      ensures !waitingConfirmationForRemoval ==>
        r == Raised("The item \"" + objectName + "\" is not waiting for removal confirmation") &&
        implicitHeight == old(implicitHeight) && gestures == old(gestures)
    {
      if !waitingConfirmationForRemoval {
        return Raised("The item \"" + objectName + "\" is not waiting for removal confirmation");
      }
      gestures := gestures + [Click("confirmRemovalDialog")];
      implicitHeight := 0.0;
      r := Done;
    }
  }

  /** Confirming before swiping raises; after a swipe it removes the item. */
  method SwipeThenConfirm(r: Rect) returns (early: Outcome, late: Outcome, height: real)
    ensures early == Raised("The item \"" + "row" + "\" is not waiting for removal confirmation")
    ensures late == Done && height == 0.0
  {
    var item := new ListItemEmpty("row", true, r, 48.0);
    early := item.ConfirmRemoval();
    var swiped := item.SwipeToDelete("right");
    late := item.ConfirmRemoval();
    height := item.implicitHeight;
  }
}
