// The AppHeader helper (_header.py): it first drags a hidden header back
// into view, then clicks its section, back, tab-drawer and action buttons,
// raising a ToolkitException with a fixed message whenever the button is
// missing, hidden, or the header is the deprecated one. Which buttons exist
// and are visible are sets of object names; the application answers a
// click on a section or tab button by selecting it.
module Header {
  import opened Common
  import opened Gestures

  /** _NO_TABS_ERROR. */
  const NoTabsError := "The MainView has no Tabs."
  /** What Python's `%` raises for a zero divisor. */
  const ModuloByZero := "integer division or modulo by zero"

  /** _show as written: the drag's column is half of the right edge's x, (x + width) // 2. */
  function ShowDragAsWritten(x: int, width: int, height: int, topY: int): Gesture
  {
    var startX := (x + width) / 2;
    var startY := topY + 5;
    Drag(startX as real, startY as real, startX as real, (startY + height) as real)
  }

  /** _show as intended: down the header's middle column, x + width // 2, from just below the top. */
  function ShowDrag(x: int, width: int, height: int, topY: int): Gesture
  {
    var startX := x + width / 2;
    var startY := topY + 5;
    Drag(startX as real, startY as real, startX as real, (startY + height) as real)
  }

  /** A header 50 wide at x = 100 is dragged at x = 75, left of the header. */
  lemma ShowDragAsWrittenMissesHeader()
    ensures !WithinColumns(ShowDragAsWritten(100, 50, 40, 0), Rect(100.0, 0.0, 50.0, 40.0))
  {
  }

  /** The intended drag stays within the header's columns and pulls down by its height. */
  lemma ShowDragWithinHeader(x: int, width: int, height: int, topY: int)
    requires width >= 0
    ensures WithinColumns(ShowDrag(x, width, height, topY), Rect(x as real, topY as real, width as real, height as real))
    ensures ShowDrag(x, width, height, topY).toY - ShowDrag(x, width, height, topY).fromY == height as real
    ensures ShowDrag(x, width, height, topY).fromY == (topY + 5) as real
  {
  }

  /** The two agree for a header at the left edge. */
  lemma ShowDragsAgreeAtOrigin(width: int, height: int, topY: int)
    requires width >= 0
    ensures ShowDragAsWritten(0, width, height, topY) == ShowDrag(0, width, height, topY)
  {
  }

  /** _switch_to_next_tab_in_drawer's index, (selectedIndex + 1) % count, raising for no tabs. */
  function NextTabIndex(selected: int, count: nat): (r: Result<int>)
    ensures r.Err? <==> count == 0
    ensures r.Err? ==> r.message == ModuloByZero
    ensures count > 0 ==> 0 <= r.value < count
    ensures count > 0 && 0 <= selected < count - 1 ==> r.value == selected + 1
    ensures count > 0 && selected == count - 1 ==> r.value == 0
  {
    if count == 0 then Err(ModuloByZero) else Ok((selected + 1) % count)
  }

  /** The tab reached after `steps` next-tab switches. */
  function IterateNext(selected: int, count: nat, steps: nat): (r: int)
    requires 0 <= selected < count
    ensures 0 <= r < count
    decreases steps
  {
    if steps == 0 then selected else IterateNext(NextTabIndex(selected, count).value, count, steps - 1)
  }

  /** Switching a + b times is switching a times, then b times. */
  lemma {:induction false} IterateNextSplit(selected: int, count: nat, a: nat, b: nat)
    requires 0 <= selected < count
    ensures IterateNext(selected, count, a + b) == IterateNext(IterateNext(selected, count, a), count, b)
    decreases a
  {
    if a > 0 {
      IterateNextSplit(NextTabIndex(selected, count).value, count, a - 1, b);
    }
  }

  /** Below the last tab, each switch moves one tab on. */
  lemma {:induction false} IterateNextClimbs(selected: int, count: nat, steps: nat)
    requires 0 <= selected && selected + steps < count
    ensures IterateNext(selected, count, steps) == selected + steps
    decreases steps
  {
    if steps > 0 {
      IterateNextClimbs(selected + 1, count, steps - 1);
    }
  }

  /** Going to the next tab `count` times comes back to the tab it started from. */
  lemma NextTabCycles(selected: int, count: nat)
    requires 0 <= selected < count
    ensures IterateNext(selected, count, count) == selected
  {
    IterateNextSplit(selected, count, count - 1 - selected, 1 + selected);
    IterateNextClimbs(selected, count, count - 1 - selected);
    IterateNextSplit(count - 1, count, 1, selected);
    IterateNextClimbs(0, count, selected);
  }

  class AppHeader {
    const x: int
    const width: int
    const height: int
    /** The y of the top container the drag starts from. */
    const topY: int
    /** The header's y property; it is visible at 0. */
    var y: int
    const useDeprecatedToolbar: bool
    /** The objectNames found under the header, and those found from the root. */
    const headerButtons: set<string>
    const rootButtons: set<string>
    const visibleButtons: set<string>
    /** Whether the deprecated header has a TabBar. */
    const hasTabBar: bool
    var selectedSection: int
    /** The tabs model's selectedIndex and count. */
    var selectedTab: int
    const tabCount: nat
    var gestures: seq<Gesture>

    constructor (gx: int, w: int, h: int, top: int, gy: int, deprecated: bool,
                 header: set<string>, root: set<string>, visible: set<string>, tabBar: bool,
                 section: int, tab: int, count: nat)
      ensures x == gx && width == w && height == h && topY == top && y == gy
      ensures useDeprecatedToolbar == deprecated && hasTabBar == tabBar
      ensures headerButtons == header && rootButtons == root && visibleButtons == visible
      ensures selectedSection == section && selectedTab == tab && tabCount == count && gestures == []
    {
      x, width, height, topY, y := gx, w, h, top, gy;
      useDeprecatedToolbar, hasTabBar := deprecated, tabBar;
      headerButtons, rootButtons, visibleButtons := header, root, visible;
      selectedSection, selectedTab, tabCount, gestures := section, tab, count, [];
    }

    /** The gestures _show_if_not_visible makes from a header at `y0`. */
    function Shown(y0: int): seq<Gesture>
      reads this
    {
      if y0 == 0 then [] else [ShowDrag(x, width, height, topY)]
    }

    /** _show_if_not_visible: a drag only when y is not 0; afterwards y is 0. */
    method ShowIfNotVisible()
      modifies this`y, this`gestures
      ensures y == 0
      ensures gestures == old(gestures) + Shown(old(y))
    {
      if y != 0 {
        gestures := gestures + [ShowDrag(x, width, height, topY)];
        y := 0;
      }
    }

    /**
     * switch_to_section_by_index: shows the header, raises for the
     * deprecated header or a missing section button, and clicks it otherwise.
     */
    method SwitchToSectionByIndex(index: int) returns (r: Outcome)
      modifies this`y, this`gestures, this`selectedSection
      ensures y == 0
      ensures var name := "section_button_" + IntToString(index);
        (useDeprecatedToolbar ==> r == Raised("Old header has no sections")) &&
        (!useDeprecatedToolbar && name !in headerButtons ==> r == Raised("Button for section with given index not found")) &&
        (!useDeprecatedToolbar && name in headerButtons ==>
           r == Done && selectedSection == index)
      ensures r != Done ==> selectedSection == old(selectedSection)
      ensures gestures == old(gestures) + Shown(old(y)) +
        (if r == Done then [Click("section_button_" + IntToString(index))] else [])
    {
      ShowIfNotVisible();
      if useDeprecatedToolbar {
        return Raised("Old header has no sections");
      }
      var name := "section_button_" + IntToString(index);
      if name !in headerButtons {
        return Raised("Button for section with given index not found");
      }
      gestures := gestures + [Click(name)];
      selectedSection := index;
      r := Done;
    }

    /** get_selected_section_index. */
    method GetSelectedSectionIndex() returns (r: Result<int>)
      ensures useDeprecatedToolbar ==> r == Err("Old header has no sections")
      ensures !useDeprecatedToolbar ==> r == Ok(selectedSection)
    {
      if useDeprecatedToolbar {
        return Err("Old header has no sections");
      }
      r := Ok(selectedSection);
    }

    /** The shared shape of click_back_button and click_custom_back_button. */
    method ClickHeaderButton(name: string, deprecatedMessage: string, missingMessage: string, hiddenMessage: string)
      returns (r: Outcome)
      modifies this`y, this`gestures
      ensures y == 0
      ensures useDeprecatedToolbar ==> r == Raised(deprecatedMessage)
      ensures !useDeprecatedToolbar && name !in headerButtons ==> r == Raised(missingMessage)
      ensures !useDeprecatedToolbar && name in headerButtons && name !in visibleButtons ==> r == Raised(hiddenMessage)
      ensures r == Done <==> !useDeprecatedToolbar && name in headerButtons && name in visibleButtons
      ensures r == Done ==> gestures == old(gestures) + Shown(old(y)) + [Click(name)]
      ensures r != Done ==> gestures == old(gestures) + Shown(old(y))
    {
      ShowIfNotVisible();
      if useDeprecatedToolbar {
        return Raised(deprecatedMessage);
      }
      if name !in headerButtons {
        return Raised(missingMessage);
      }
      if name !in visibleButtons {
        return Raised(hiddenMessage);
      }
      gestures := gestures + [Click(name)];
      r := Done;
    }

    /** click_back_button. */
    method ClickBackButton() returns (r: Outcome)
      modifies this`y, this`gestures
      ensures y == 0
      ensures useDeprecatedToolbar ==> r == Raised("Old header has no back button")
      ensures !useDeprecatedToolbar && "backButton" !in headerButtons ==> r == Raised("Missing back button in header")
      ensures !useDeprecatedToolbar && "backButton" in headerButtons && "backButton" !in visibleButtons ==>
        r == Raised("Back button in header not visible")
      ensures r == Done <==> !useDeprecatedToolbar && "backButton" in headerButtons && "backButton" in visibleButtons
      ensures r == Done ==> gestures == old(gestures) + Shown(old(y)) + [Click("backButton")]
      ensures r != Done ==> gestures == old(gestures) + Shown(old(y))
    {
      r := ClickHeaderButton("backButton", "Old header has no back button",
                             "Missing back button in header", "Back button in header not visible");
    }

    /** click_custom_back_button. */
    method ClickCustomBackButton() returns (r: Outcome)
      modifies this`y, this`gestures
      ensures y == 0
      ensures useDeprecatedToolbar ==> r == Raised("Old header has no custom back button")
      ensures !useDeprecatedToolbar && "customBackButton" !in headerButtons ==>
        r == Raised("Missing custom back button in header")
      ensures !useDeprecatedToolbar && "customBackButton" in headerButtons && "customBackButton" !in visibleButtons ==>
        r == Raised("Custom back button in header not visible")
      ensures r == Done <==>
        !useDeprecatedToolbar && "customBackButton" in headerButtons && "customBackButton" in visibleButtons
      ensures r == Done ==> gestures == old(gestures) + Shown(old(y)) + [Click("customBackButton")]
      ensures r != Done ==> gestures == old(gestures) + Shown(old(y))
    {
      r := ClickHeaderButton("customBackButton", "Old header has no custom back button",
                             "Missing custom back button in header", "Custom back button in header not visible");
    }

    /**
     * _switch_to_tab_in_drawer_by_index: the drawer button is always
     * clicked; an already selected index stops there, otherwise its tab
     * button is clicked or the missing button raises.
     */
    method SwitchToTabInDrawerByIndex(index: int) returns (r: Outcome)
      modifies this`gestures, this`selectedTab
      ensures var name := "tabButton" + IntToString(index);
        ("tabsButton" !in headerButtons ==> r == Raised(NoTabsError) && gestures == old(gestures)) &&
        ("tabsButton" in headerButtons && old(selectedTab) == index ==>
           r == Done && gestures == old(gestures) + [Click("tabsButton")]) &&
        ("tabsButton" in headerButtons && old(selectedTab) != index && name !in rootButtons ==>
           r == Raised("Tab button " + IntToString(index) + " not found.") && gestures == old(gestures) + [Click("tabsButton")]) &&
        ("tabsButton" in headerButtons && old(selectedTab) != index && name in rootButtons ==>
           r == Done && gestures == old(gestures) + [Click("tabsButton"), Click(name)])
      ensures r == Done ==> selectedTab == index
      ensures r != Done ==> selectedTab == old(selectedTab)
    {
      if "tabsButton" !in headerButtons {
        return Raised(NoTabsError);
      }
      gestures := gestures + [Click("tabsButton")];
      if selectedTab == index {
        return Done;
      }
      var name := "tabButton" + IntToString(index);
      if name !in rootButtons {
        return Raised("Tab button " + IntToString(index) + " not found.");
      }
      gestures := gestures + [Click(name)];
      selectedTab := index;
      r := Done;
    }

    /**
     * switch_to_next_tab: shows the header; the deprecated header hands
     * over to its TabBar helper (one recorded gesture) or raises when there
     * is none; the drawer goes to (selectedIndex + 1) % count.
     */
    method SwitchToNextTab() returns (r: Outcome)
      modifies this`y, this`gestures, this`selectedTab
      ensures y == 0
      ensures var shown := old(gestures) + Shown(old(y));
        (useDeprecatedToolbar && !hasTabBar ==>
           r == Raised(NoTabsError) && gestures == shown && selectedTab == old(selectedTab)) &&
        (useDeprecatedToolbar && hasTabBar ==>
           r == Done && gestures == shown + [Click("TabBar")] && selectedTab == old(selectedTab)) &&
        (!useDeprecatedToolbar && tabCount == 0 ==>
           r == Raised(ModuloByZero) && gestures == shown && selectedTab == old(selectedTab))
      ensures !useDeprecatedToolbar && tabCount > 0 ==>
        var shown := old(gestures) + Shown(old(y));
        var next := (old(selectedTab) + 1) % tabCount;
        var name := "tabButton" + IntToString(next);
        ("tabsButton" !in headerButtons ==>
           r == Raised(NoTabsError) && gestures == shown && selectedTab == old(selectedTab)) &&
        ("tabsButton" in headerButtons && old(selectedTab) == next ==>
           r == Done && gestures == shown + [Click("tabsButton")] && selectedTab == next) &&
        ("tabsButton" in headerButtons && old(selectedTab) != next && name !in rootButtons ==>
           r == Raised("Tab button " + IntToString(next) + " not found.") &&
           gestures == shown + [Click("tabsButton")] && selectedTab == old(selectedTab)) &&
        ("tabsButton" in headerButtons && old(selectedTab) != next && name in rootButtons ==>
           r == Done && gestures == shown + [Click("tabsButton"), Click(name)] && selectedTab == next)
    {
      ShowIfNotVisible();
      if useDeprecatedToolbar {
        if !hasTabBar {
          return Raised(NoTabsError);
        }
        gestures := gestures + [Click("TabBar")];
        return Done;
      }
      var next := NextTabIndex(selectedTab, tabCount);
      if next.Err? {
        return Raised(next.message);
      }
      r := SwitchToTabInDrawerByIndex(next.value);
    }

    /** switch_to_tab_by_index: only the new header has a tab drawer. */
    method SwitchToTabByIndex(index: int) returns (r: Outcome)
      modifies this`y, this`gestures, this`selectedTab
      ensures y == 0
      ensures useDeprecatedToolbar ==>
        r == Raised("AppHeader.switch_to_tab_by_index only works with new header") &&
        selectedTab == old(selectedTab) && gestures == old(gestures) + Shown(old(y))
      ensures var name := "tabButton" + IntToString(index);
        var shown := old(gestures) + Shown(old(y));
        (!useDeprecatedToolbar && "tabsButton" !in headerButtons ==>
           r == Raised(NoTabsError) && gestures == shown && selectedTab == old(selectedTab)) &&
        (!useDeprecatedToolbar && "tabsButton" in headerButtons && old(selectedTab) == index ==>
           r == Done && gestures == shown + [Click("tabsButton")] && selectedTab == index) &&
        (!useDeprecatedToolbar && "tabsButton" in headerButtons && old(selectedTab) != index && name !in rootButtons ==>
           r == Raised("Tab button " + IntToString(index) + " not found.") &&
           gestures == shown + [Click("tabsButton")] && selectedTab == old(selectedTab)) &&
        (!useDeprecatedToolbar && "tabsButton" in headerButtons && old(selectedTab) != index && name in rootButtons ==>
           r == Done && gestures == shown + [Click("tabsButton"), Click(name)] && selectedTab == index)
    {
      ShowIfNotVisible();
      if useDeprecatedToolbar {
        return Raised("AppHeader.switch_to_tab_by_index only works with new header");
      }
      r := SwitchToTabInDrawerByIndex(index);
    }

    /**
     * _get_action_button: the header's own button, or else the overflow's,
     * after clicking the overflow button open; a hidden overflow button
     * raises its own message, anything missing the generic one.
     */
    method GetActionButton(action: string) returns (r: Result<string>)
      modifies this`gestures
      ensures action + "_header_button" in headerButtons ==> r == Ok(action + "_header_button") && gestures == old(gestures)
      ensures action + "_header_button" !in headerButtons ==>
        ("actions_overflow_button" !in headerButtons ==>
           r == Err("Button not found in header or overflow") && gestures == old(gestures)) &&
        ("actions_overflow_button" in headerButtons && "actions_overflow_button" !in visibleButtons ==>
           r == Err("No actions in overflow") && gestures == old(gestures)) &&
        ("actions_overflow_button" in headerButtons && "actions_overflow_button" in visibleButtons ==>
           gestures == old(gestures) + [Click("actions_overflow_button")] &&
           r == (if action + "_header_overflow_button" in rootButtons then Ok(action + "_header_overflow_button")
                 else Err("Button not found in header or overflow")))
    {
      var name := action + "_header_button";
      if name in headerButtons {
        return Ok(name);
      }
      if "actions_overflow_button" !in headerButtons {
        return Err("Button not found in header or overflow");
      }
      if "actions_overflow_button" !in visibleButtons {
        return Err("No actions in overflow");
      }
      gestures := gestures + [Click("actions_overflow_button")];
      var overflowName := action + "_header_overflow_button";
      if overflowName !in rootButtons {
        return Err("Button not found in header or overflow");
      }
      r := Ok(overflowName);
    }

    /** click_action_button: shows the header and clicks the button found, or raises. */
    method ClickActionButton(action: string) returns (r: Outcome)
      modifies this`y, this`gestures
      ensures y == 0
      ensures var shown := old(gestures) + Shown(old(y));
        var overflowName := action + "_header_overflow_button";
        (action + "_header_button" in headerButtons ==>
           r == Done && gestures == shown + [Click(action + "_header_button")]) &&
        (action + "_header_button" !in headerButtons && "actions_overflow_button" !in headerButtons ==>
           r == Raised("Button not found in header or overflow") && gestures == shown) &&
        (action + "_header_button" !in headerButtons && "actions_overflow_button" in headerButtons &&
         "actions_overflow_button" !in visibleButtons ==>
           r == Raised("No actions in overflow") && gestures == shown) &&
        (action + "_header_button" !in headerButtons && "actions_overflow_button" in headerButtons &&
         "actions_overflow_button" in visibleButtons && overflowName in rootButtons ==>
           r == Done && gestures == shown + [Click("actions_overflow_button"), Click(overflowName)]) &&
        (action + "_header_button" !in headerButtons && "actions_overflow_button" in headerButtons &&
         "actions_overflow_button" in visibleButtons && overflowName !in rootButtons ==>
           r == Raised("Button not found in header or overflow") && gestures == shown + [Click("actions_overflow_button")])
    {
      ShowIfNotVisible();
      var button := GetActionButton(action);
      if button.Err? {
        return Raised(button.message);
      }
      gestures := gestures + [Click(button.value)];
      r := Done;
    }
  }

  /** In a drawer of three tabs, the next tab after the last is the first. */
  method NextTabWrapsAround() returns (r: Outcome, selected: int, lastClick: Gesture)
    ensures r == Done && selected == 0 && lastClick == Click("tabButton0")
  {
    assert IntToString(0) == "0";
    assert "tabButton" + IntToString(0) == "tabButton0";
    var header := new AppHeader(0, 400, 60, 0, 0, false, {"tabsButton"}, {"tabButton0"}, {}, false, 0, 2, 3);
    r := header.SwitchToNextTab();
    selected, lastClick := header.selectedTab, header.gestures[|header.gestures| - 1];
  }
}
