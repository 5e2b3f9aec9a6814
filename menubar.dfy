// The MenuBar (ucmenubar.cpp): an ordered list of menus, and for each menu
// that has a platform menu, while a platform menu bar exists, a wrapper
// that inserts it into the platform bar.
module MenuBar {
  import opened Common

  /** A menu, by identity; the null menu is an Option. */
  type MenuId = nat

  /**
   * insert(index, x) on a list: x lands at index and the later elements
   * move one place right.
   */
  function InsertAt<T>(s: seq<T>, index: nat, x: T): (r: seq<T>)
    requires index <= |s|
    ensures |r| == |s| + 1 && r[index] == x
    ensures forall k :: 0 <= k < index ==> r[k] == s[k]
    ensures forall k :: index < k < |r| ==> r[k] == s[k - 1]
  {
    s[..index] + [x] + s[index..]
  }

  /** QList::removeOne: drops the first occurrence of x, if any. */
  function RemoveFirst<T(==)>(s: seq<T>, x: T): seq<T>
  {
    if s == [] then []
    else if s[0] == x then s[1..]
    else [s[0]] + RemoveFirst(s[1..], x)
  }

  /** Without x the list is unchanged. */
  lemma {:induction false} RemoveFirstAbsent<T>(s: seq<T>, x: T)
    requires x !in s
    ensures RemoveFirst(s, x) == s
  {
    if s != [] {
      RemoveFirstAbsent(s[1..], x);
    }
  }

  /** With x first at i, exactly that element goes and the others keep their order. */
  lemma {:induction false} RemoveFirstAt<T>(s: seq<T>, x: T, i: nat)
    requires i < |s| && s[i] == x && x !in s[..i]
    ensures RemoveFirst(s, x) == s[..i] + s[i + 1..]
  {
    if i > 0 {
      assert s[0] in s[..i];
      assert s[1..][..i - 1] == s[1..i];
      assert x !in s[1..][..i - 1];
      RemoveFirstAt(s[1..], x, i - 1);
      assert s[..i] == [s[0]] + s[1..i];
      assert s[1..][i..] == s[i + 1..];
    }
  }

  /** One occurrence fewer of x, the same of everything else. */
  lemma {:induction false} RemoveFirstMultiset<T>(s: seq<T>, x: T)
    ensures x in s ==> multiset(RemoveFirst(s, x)) == multiset(s) - multiset{x}
    ensures x !in s ==> multiset(RemoveFirst(s, x)) == multiset(s)
  {
    if s != [] {
      RemoveFirstMultiset(s[1..], x);
      assert s == [s[0]] + s[1..];
    }
  }

  /** Inserting a menu that was not there and removing it gives the list back. */
  lemma RemoveInserted<T>(s: seq<T>, index: nat, x: T)
    requires index <= |s| && x !in s
    ensures RemoveFirst(InsertAt(s, index, x), x) == s
  {
    var r := InsertAt(s, index, x);
    assert r[..index] == s[..index];
    assert x !in r[..index];
    RemoveFirstAt(r, x, index);
    assert r[index + 1..] == s[index..];
  }

  /**
   * The wrapper of one menu in the platform bar: it was inserted before the
   * platform menu of `before`, the menu it displaced in the list, or
   * appended when that menu was absent or had no platform menu.
   */
  datatype PlatformWrapper = PlatformWrapper(before: Option<MenuId>)

  datatype MenuBarEvent = MenusChanged

  class UCMenuBar {
    var menus: seq<MenuId>
    /** Whether the platform theme created a platform menu bar. */
    const platformBar: bool
    /** The menus whose platformMenu() is not null. */
    const hasPlatformMenu: set<MenuId>
    var platformMenus: map<MenuId, PlatformWrapper>
    var events: seq<MenuBarEvent>

    /** Wrappers exist only with a platform bar, and only for menus with a platform menu. */
    predicate Valid()
      reads this
    {
      (!platformBar ==> platformMenus == map[]) &&
      (forall m :: m in platformMenus ==> m in hasPlatformMenu)
    }

    constructor (platform: bool, withPlatformMenu: set<MenuId>)
      ensures Valid()
      ensures menus == [] && platformMenus == map[] && events == []
      ensures platformBar == platform && hasPlatformMenu == withPlatformMenu
    {
      menus, platformMenus, events := [], map[], [];
      platformBar, hasPlatformMenu := platform, withPlatformMenu;
    }

    /** The wrapper insertMenu makes for `menu` placed at `index` in `list`. */
    static function WrapperAt(list: seq<MenuId>, index: nat, withPlatformMenu: set<MenuId>): PlatformWrapper
    {
      PlatformWrapper(if index < |list| && list[index] in withPlatformMenu then Some(list[index]) else None)
    }

    /**
     * UCMenuBarPrivate::insertMenu: the menu goes to `index`; with a platform
     * bar and a platform menu it gets a wrapper placed before the displaced
     * menu's platform menu.
     */
    method InsertMenuPrivate(index: nat, menu: MenuId)
      requires Valid() && index <= |menus|
      modifies this`menus, this`platformMenus
      ensures Valid()
      ensures menus == InsertAt(old(menus), index, menu)
      ensures platformBar && menu in hasPlatformMenu ==>
        platformMenus == old(platformMenus)[menu := WrapperAt(old(menus), index, hasPlatformMenu)]
      ensures !(platformBar && menu in hasPlatformMenu) ==> platformMenus == old(platformMenus)
    {
      var prevMenu: Option<MenuId> := if |menus| > index then Some(menus[index]) else None;
      menus := menus[..index] + [menu] + menus[index..];
      if platformBar && menu in hasPlatformMenu {
        var before := if prevMenu.Some? && prevMenu.value in hasPlatformMenu then prevMenu else None;
        platformMenus := platformMenus[menu := PlatformWrapper(before)];
      }
    }

    /** UCMenuBarPrivate::removeMenu: the first occurrence goes, and so does the menu's wrapper. */
    method RemoveMenuPrivate(menu: MenuId)
      requires Valid()
      modifies this`menus, this`platformMenus
      ensures Valid()
      ensures menus == RemoveFirst(old(menus), menu)
      ensures platformMenus == old(platformMenus) - {menu}
    {
      menus := RemoveFirst(menus, menu);
      if platformBar {
        if menu in platformMenus {
          platformMenus := platformMenus - {menu};
        }
      }
    }

    /** menu_append: at the end, through the private insert, so without menusChanged. */
    method MenuAppend(menu: MenuId)
      requires Valid()
      modifies this`menus, this`platformMenus
      ensures Valid()
      ensures menus == old(menus) + [menu]
      ensures platformBar && menu in hasPlatformMenu ==>
        platformMenus == old(platformMenus)[menu := PlatformWrapper(None)]
      ensures !(platformBar && menu in hasPlatformMenu) ==> platformMenus == old(platformMenus)
    {
      InsertMenuPrivate(|menus|, menu);
      assert old(menus)[|old(menus)|..] == [];
    }

    /** menu_count. */
    method MenuCount() returns (n: nat)
      ensures n == |menus|
    {
      n := |menus|;
    }

    /** menu_at: QList::value gives null outside the list. */
    method MenuAt(index: int) returns (m: Option<MenuId>)
      ensures m.Some? <==> 0 <= index < |menus|
      ensures m.Some? ==> m.value == menus[index]
    {
      if 0 <= index < |menus| {
        m := Some(menus[index]);
      } else {
        m := None;
      }
    }

    /** menu_clear: the list empties; the wrappers stay. */
    method MenuClear()
      requires Valid()
      modifies this`menus
      ensures Valid() && menus == []
    {
      menus := [];
    }

    /** The public insertMenu: a null menu is ignored, any other is inserted and announced. */
    method InsertMenu(index: nat, menu: Option<MenuId>)
      requires Valid() && index <= |menus|
      modifies this`menus, this`platformMenus, this`events
      ensures Valid()
      ensures menu.None? ==> menus == old(menus) && platformMenus == old(platformMenus) && events == old(events)
      ensures menu.Some? ==> menus == InsertAt(old(menus), index, menu.value) && events == old(events) + [MenusChanged]
      ensures menu.Some? && platformBar && menu.value in hasPlatformMenu ==>
        platformMenus == old(platformMenus)[menu.value := WrapperAt(old(menus), index, hasPlatformMenu)]
      ensures menu.Some? && !(platformBar && menu.value in hasPlatformMenu) ==> platformMenus == old(platformMenus)
    {
      if menu.None? {
        return;
      }
      InsertMenuPrivate(index, menu.value);
      events := events + [MenusChanged];
    }

    /** appendMenu: insertMenu at the current count. */
    method AppendMenu(menu: Option<MenuId>)
      requires Valid()
      modifies this`menus, this`platformMenus, this`events
      ensures Valid()
      ensures menu.None? ==> menus == old(menus) && platformMenus == old(platformMenus) && events == old(events)
      ensures menu.Some? ==> menus == old(menus) + [menu.value] && events == old(events) + [MenusChanged]
    {
      InsertMenu(|menus|, menu);
      assert old(menus)[|old(menus)|..] == [];
    }

    /** The public removeMenu: a null menu is ignored, any other is removed and announced. */
    method RemoveMenu(menu: Option<MenuId>)
      requires Valid()
      modifies this`menus, this`platformMenus, this`events
      ensures Valid()
      ensures menu.None? ==> menus == old(menus) && platformMenus == old(platformMenus) && events == old(events)
      ensures menu.Some? ==> menus == RemoveFirst(old(menus), menu.value)
      ensures menu.Some? ==> platformMenus == old(platformMenus) - {menu.value} && events == old(events) + [MenusChanged]
    {
      if menu.None? {
        return;
      }
      RemoveMenuPrivate(menu.value);
      events := events + [MenusChanged];
    }

    /** The destroyed-menu handler: its wrapper, if any, is removed; the list is left as it is. */
    method MenuDestroyed(menu: MenuId)
      requires Valid()
      modifies this`platformMenus
      ensures Valid() && platformMenus == old(platformMenus) - {menu}
    {
      if menu in platformMenus {
        platformMenus := platformMenus - {menu};
      }
    }
  }

  /**
   * Inserting a menu before the first of two menus with platform menus
   * places its wrapper before that menu's platform menu; removing it again
   * restores the list and drops the wrapper.
   */
  method InsertThenRemove() returns (wrapper: PlatformWrapper, restored: bool, wrapped: bool)
    ensures wrapper == PlatformWrapper(Some(1)) && restored && !wrapped
  {
    var bar := new UCMenuBar(true, {1, 2, 3});
    bar.AppendMenu(Some(1));
    bar.AppendMenu(Some(2));
    var before := bar.menus;
    bar.InsertMenu(0, Some(3));
    wrapper := bar.platformMenus[3];
    bar.RemoveMenu(Some(3));
    RemoveInserted(before, 0, 3);
    restored := bar.menus == before;
    wrapped := 3 in bar.platformMenus;
  }
}
