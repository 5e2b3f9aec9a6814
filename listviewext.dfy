// ListViewProxy (listviewextensions.cpp): the helper a ListItem attaches to
// its ListView to take over focus and key navigation. It filters the view's
// focus-in and key-press events without consuming them, arms key
// navigation on the arrow keys along the view's orientation and hands the
// armed navigation to the next enabled current item.
module ListViewExtensions {
  import opened Common

  /** Qt::Orientation. */
  datatype Orientation = Horizontal | Vertical

  /** Qt::Key_Left, Key_Up, Key_Right and Key_Down. */
  const KeyLeft: int := 0x0100_0012
  const KeyUp: int := 0x0100_0013
  const KeyRight: int := 0x0100_0014
  const KeyDown: int := 0x0100_0015

  /** The reasons a focus-in carries; only the two tab reasons matter here. */
  datatype FocusReason = TabFocus | BacktabFocus | OtherFocus

  /** The events the filter sees. */
  datatype Event = FocusIn(reason: FocusReason) | KeyPress(key: int) | OtherEvent

  /** An item the view can report as current: whether it is a ListItem, and whether it is enabled. */
  datatype Item = Item(id: nat, isListItem: bool, enabled: bool)

  /** The arrow keys that move along the orientation arm key navigation. */
  predicate ArmsNavigation(orientation: Orientation, key: int)
  {
    (orientation == Vertical && (key == KeyUp || key == KeyDown)) ||
    (orientation == Horizontal && (key == KeyLeft || key == KeyRight))
  }

  class ListViewProxy {
    /** The view's own properties. */
    const orientation: Orientation
    var count: int
    var currentIndex: int
    /** Whether the proxy is installed as the view's event filter. */
    var filterInstalled: bool
    /** The proxy's own flags and its copy of the view's current item. */
    var isEventFilter: bool
    var keyNavigation: bool
    var currentItem: Option<Item>
    /** The key-navigation flag of each ListItem, as the proxy sets it. */
    var itemNavigation: map<nat, bool>

    /**
     * The constructor: the flags start as `filter` and `navigation` (their
     * initial values are not set in this file), and the view's current item
     * is taken over as by onCurrentItemChanged.
     */
    constructor (o: Orientation, n: int, index: int, viewItem: Option<Item>, filter: bool, navigation: bool)
      ensures orientation == o && count == n && currentIndex == index && currentItem == viewItem
      ensures !filterInstalled && isEventFilter == filter
      ensures keyNavigation == (navigation && !(viewItem.Some? && viewItem.value.enabled))
      ensures viewItem.Some? && viewItem.value.enabled && viewItem.value.isListItem ==>
        itemNavigation == map[viewItem.value.id := navigation]
      ensures !(viewItem.Some? && viewItem.value.enabled && viewItem.value.isListItem) ==> itemNavigation == map[]
    {
      orientation, count, currentIndex := o, n, index;
      filterInstalled, isEventFilter, keyNavigation := false, filter, navigation;
      currentItem, itemNavigation := None, map[];
      new;
      CurrentItemChanged(viewItem);
    }

    /** setKeyNavigationForListView: only a current ListItem takes the flag. */
    method SetKeyNavigationForListView(value: bool)
      modifies this`itemNavigation
      ensures currentItem.Some? && currentItem.value.isListItem ==>
        itemNavigation == old(itemNavigation)[currentItem.value.id := value]
      ensures !(currentItem.Some? && currentItem.value.isListItem) ==> itemNavigation == old(itemNavigation)
    {
      if currentItem.Some? && currentItem.value.isListItem {
        itemNavigation := itemNavigation[currentItem.value.id := value];
      }
    }

    /**
     * onCurrentItemChanged: the old current item loses key navigation; an
     * enabled new one receives the armed flag, which is then consumed.
     */
    method CurrentItemChanged(viewItem: Option<Item>)
      modifies this`itemNavigation, this`currentItem, this`keyNavigation
      ensures currentItem == viewItem
      ensures viewItem.Some? && viewItem.value.enabled ==> !keyNavigation
      ensures !(viewItem.Some? && viewItem.value.enabled) ==> keyNavigation == old(keyNavigation)
      ensures itemNavigation == AfterCurrentItemChanged(old(itemNavigation), old(currentItem), viewItem, old(keyNavigation))
    {
      SetKeyNavigationForListView(false);
      currentItem := viewItem;
      if viewItem.Some? && viewItem.value.enabled {
        SetKeyNavigationForListView(keyNavigation);
        keyNavigation := false;
      }
    }

    /** overrideItemNavigation: installs or removes the filter and records which. */
    method OverrideItemNavigation(override: bool)
      modifies this`filterInstalled, this`isEventFilter
      ensures filterInstalled == override && isEventFilter == override
    {
      filterInstalled := override;
      isEventFilter := override;
    }

    /** The destructor: the filter is removed only when the proxy recorded it as set. */
    method Destroy()
      modifies this`filterInstalled
      ensures filterInstalled == (old(filterInstalled) && !isEventFilter)
    {
      if isEventFilter {
        filterInstalled := false;
      }
    }

    /** keyPressEvent: arms navigation on the arrows along the orientation, and never consumes the key. */
    method KeyPressEvent(key: int) returns (consumed: bool)
      modifies this`keyNavigation
      ensures !consumed
      ensures keyNavigation == (old(keyNavigation) || ArmsNavigation(orientation, key))
    {
      if ArmsNavigation(orientation, key) {
        keyNavigation := true;
      }
      consumed := false;
    }

    /**
     * focusInEvent: a tab or backtab focus with no current item in a
     * non-empty view makes index 0 current, so that the view reports
     * `firstItem` as its current item, then gives that item key navigation;
     * the event is never consumed.
     */
    method FocusInEvent(reason: FocusReason, firstItem: Option<Item>) returns (consumed: bool)
      modifies this`currentIndex, this`itemNavigation, this`currentItem, this`keyNavigation
      ensures !consumed
      ensures var takes := (reason == TabFocus || reason == BacktabFocus) && old(currentItem).None? && count > 0;
        (takes ==> currentIndex == 0 && currentItem == firstItem) &&
        (!takes ==> currentIndex == old(currentIndex) && currentItem == old(currentItem) &&
                    itemNavigation == old(itemNavigation) && keyNavigation == old(keyNavigation))
      ensures (reason == TabFocus || reason == BacktabFocus) && old(currentItem).None? && count > 0 && firstItem.Some? ==>
        (firstItem.value.isListItem ==> firstItem.value.id in itemNavigation && itemNavigation[firstItem.value.id]) &&
        (firstItem.value.enabled ==> !keyNavigation)
    {
      if (reason == TabFocus || reason == BacktabFocus) && currentItem.None? && count > 0 {
        currentIndex := 0;
        // The view announces its new current item synchronously.
        if firstItem.Some? {
          CurrentItemChanged(firstItem);
        }
        SetKeyNavigationForListView(true);
      }
      consumed := false;
    }

    /** eventFilter: focus-in and key-press go to their handlers; nothing is ever consumed. */
    method EventFilter(event: Event, firstItem: Option<Item>) returns (consumed: bool)
      modifies this`currentIndex, this`itemNavigation, this`currentItem, this`keyNavigation
      ensures !consumed
      ensures event.OtherEvent? ==>
        currentIndex == old(currentIndex) && currentItem == old(currentItem) &&
        itemNavigation == old(itemNavigation) && keyNavigation == old(keyNavigation)
      ensures event.KeyPress? ==>
        keyNavigation == (old(keyNavigation) || ArmsNavigation(orientation, event.key)) &&
        currentItem == old(currentItem) && itemNavigation == old(itemNavigation)
    {
      match event
      case FocusIn(reason) =>
        consumed := FocusInEvent(reason, firstItem);
      case KeyPress(key) =>
        consumed := KeyPressEvent(key);
      case OtherEvent =>
        consumed := false;
    }
  }

  /** The ListItem flags after setKeyNavigationForListView(value) with `current` as the current item. */
  function SetItemNavigation(flags: map<nat, bool>, current: Option<Item>, value: bool): (r: map<nat, bool>)
    ensures current.Some? && current.value.isListItem ==> r.Keys == flags.Keys + {current.value.id}
    ensures !(current.Some? && current.value.isListItem) ==> r == flags
  {
    if current.Some? && current.value.isListItem then flags[current.value.id := value] else flags
  }

  /** The ListItem flags after onCurrentItemChanged from `oldItem` to `newItem`, with `armed` navigation. */
  function AfterCurrentItemChanged(flags: map<nat, bool>, oldItem: Option<Item>, newItem: Option<Item>, armed: bool): map<nat, bool>
  {
    var cleared := SetItemNavigation(flags, oldItem, false);
    if newItem.Some? && newItem.value.enabled then SetItemNavigation(cleared, newItem, armed) else cleared
  }

  /**
   * Moving from one ListItem to another: the old one loses key navigation;
   * an enabled new one has it exactly when it was armed, a disabled one keeps what it had.
   */
  lemma NavigationHandedOver(flags: map<nat, bool>, oldItem: Item, newItem: Item, armed: bool)
    requires oldItem.isListItem && newItem.isListItem && oldItem.id != newItem.id
    ensures var r := AfterCurrentItemChanged(flags, Some(oldItem), Some(newItem), armed);
      oldItem.id in r && !r[oldItem.id] &&
      (newItem.enabled ==> newItem.id in r && r[newItem.id] == armed) &&
      (!newItem.enabled ==> (newItem.id in r <==> newItem.id in flags) &&
                            (newItem.id in flags ==> r[newItem.id] == flags[newItem.id]))
  {
  }

  /** Only the old and the new current item may change: every other ListItem keeps its flag. */
  lemma OtherItemsUntouched(flags: map<nat, bool>, oldItem: Option<Item>, newItem: Option<Item>, armed: bool, id: nat)
    requires oldItem.Some? ==> oldItem.value.id != id
    requires newItem.Some? ==> newItem.value.id != id
    ensures var r := AfterCurrentItemChanged(flags, oldItem, newItem, armed);
      (id in r <==> id in flags) && (id in flags ==> r[id] == flags[id])
  {
  }

  /**
   * A Down press in a vertical view arms navigation, and tabbing into the
   * empty-handed view then makes its first ListItem current with navigation
   * on; the armed flag is consumed.
   */
  method DownThenTab() returns (navigationOn: bool, armedAfter: bool, consumed: bool)
    ensures navigationOn && !armedAfter && !consumed
  {
    var proxy := new ListViewProxy(Vertical, 3, -1, None, false, false);
    proxy.OverrideItemNavigation(true);
    consumed := proxy.EventFilter(KeyPress(KeyDown), None);
    var first := Item(7, true, true);
    var c2 := proxy.FocusInEvent(TabFocus, Some(first));
    consumed := consumed || c2;
    navigationOn := proxy.itemNavigation[7];
    armedAfter := proxy.keyNavigation;
  }
}
