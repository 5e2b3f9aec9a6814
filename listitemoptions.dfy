// ListItemOptions (uclistitemoptions.cpp): the list of actions shown on one
// side of a list item, with a latch that rejects the whole list once a
// non-Action has been appended, and the one panel item the list owns, which
// at most one list item holds at a time while one more may wait for it.
module ListItemOptions {
  import opened Common

  /** QML objects and list items are identified by opaque ids. */
  type ObjectId = nat
  type ItemId = nat

  datatype OptionsEvent = NotAnAction(index: nat) | PanelItemChanged

  class UCListItemOptions {
    var actions: seq<ObjectId>
    var actionsFailure: bool
    /** The panel item exists (createPanelItem succeeded once). */
    var panel: bool
    /** The panel item's parent item: the list item holding the panel. */
    var panelParent: Option<ItemId>
    var connected: bool
    var leading: bool
    /** The list item waiting for the panel while another one holds it. */
    var queuedItem: Option<ItemId>
    var events: seq<OptionsEvent>

    /** Only a created panel can have a parent; connected tracks the parent; leading only while connected. */
    predicate Valid()
      reads this
    {
      (connected <==> panelParent.Some?) && (panelParent.Some? ==> panel) && (leading ==> connected)
    }

    constructor ()
      ensures Valid()
      ensures actions == [] && !actionsFailure && !panel && panelParent == None
      ensures !connected && !leading && queuedItem == None && events == []
    {
      actions, actionsFailure := [], false;
      panel, panelParent, connected, leading := false, None, false, false;
      queuedItem, events := None, [];
    }

    /** funcAppend: a non-Action latches the failure and empties the list; while latched, Actions are dropped. */
    method Append(option: ObjectId, isAction: bool)
      modifies this`actions, this`actionsFailure, this`events
      ensures !isAction ==> actionsFailure && actions == [] && events == old(events) + [NotAnAction(|old(actions)|)]
      ensures isAction ==> (actionsFailure == old(actionsFailure) && events == old(events) &&
                            actions == (if old(actionsFailure) then old(actions) else old(actions) + [option]))
    {
      if !isAction {
        events := events + [NotAnAction(|actions|)];
        actionsFailure := true;
        actions := [];
        return;
      }
      if !actionsFailure {
        actions := actions + [option];
      }
    }

    /** funcCount. */
    method Count() returns (n: nat)
      ensures n == |actions|
    {
      n := |actions|;
    }

    /** funcAt: QList::at requires a valid index. */
    method At(index: nat) returns (option: ObjectId)
      requires index < |actions|
      ensures option == actions[index]
    {
      option := actions[index];
    }

    /** funcClear: empties the list and releases the failure latch. */
    method Clear()
      modifies this`actions, this`actionsFailure
      ensures actions == [] && !actionsFailure
    {
      actionsFailure := false;
      actions := [];
    }

    /** isConnectedTo: the panel exists, is connected, and its parent is the item. */
    predicate IsConnectedTo(item: ItemId)
      reads this
    {
      panel && connected && panelParent == Some(item)
    }

    /** createPanelItem; `canCreate` says whether the panel document loads without error. */
    method CreatePanelItem(canCreate: bool) returns (created: bool)
      modifies this`panel, this`events
      ensures created == (old(panel) || canCreate) && panel == created
      ensures events == old(events) + (if !old(panel) && canCreate then [PanelItemChanged] else [])
    {
      if panel {
        return true;
      }
      if canCreate {
        panel := true;
        events := events + [PanelItemChanged];
      }
      created := panel;
    }

    /**
     * connectToListItem. A panel held by another item queues the requester
     * and refuses; a free panel is handed to the item.
     */
    method Connect(item: ItemId, leadingSide: bool, canCreate: bool) returns (ok: bool)
      requires Valid()
      modifies this
      ensures Valid()
      ensures actions == old(actions) && actionsFailure == old(actionsFailure)
      ensures panel == (old(panel) || canCreate)
      ensures !panel || old(IsConnectedTo(item)) ==>
        ok == old(IsConnectedTo(item)) && panelParent == old(panelParent) && connected == old(connected) &&
        leading == old(leading) && queuedItem == old(queuedItem)
      ensures panel && !old(IsConnectedTo(item)) && old(panelParent).Some? ==>
        !ok && queuedItem == Some(item) && panelParent == old(panelParent) && connected == old(connected) &&
        leading == old(leading)
      ensures panel && old(panelParent).None? ==>
        ok && panelParent == Some(item) && connected && leading == leadingSide && queuedItem == old(queuedItem)
      ensures ok <==> IsConnectedTo(item)
    {
      var created := CreatePanelItem(canCreate);
      if !created || IsConnectedTo(item) {
        return IsConnectedTo(item);
      }
      if panelParent.Some? {
        queuedItem := Some(item);
        return false;
      }
      leading := leadingSide;
      panelParent := Some(item);
      connected := true;
      ok := true;
    }

    /**
     * disconnectFromListItem. The queued item, if any, then grabs the panel;
     * `queuedLeading` is whether this list is that item's leading list.
     */
    method Disconnect(queuedLeading: bool)
      requires Valid()
      modifies this
      ensures Valid()
      ensures actions == old(actions) && actionsFailure == old(actionsFailure) && panel == old(panel)
      ensures !old(panel) || old(panelParent).None? ==>
        panelParent == old(panelParent) && connected == old(connected) && leading == old(leading) &&
        queuedItem == old(queuedItem)
      ensures old(panel) && old(panelParent).Some? ==>
        queuedItem == None &&
        (old(queuedItem).None? ==> panelParent == None && !connected && !leading) &&
        (old(queuedItem).Some? ==> panelParent == old(queuedItem) && connected && leading == queuedLeading)
    {
      if !panel || panelParent.None? {
        return;
      }
      panelParent := None;
      connected := false;
      leading := false;
      if queuedItem.Some? {
        var _ := Connect(queuedItem.value, queuedLeading, true);
        queuedItem := None;
      }
    }
  }

  /** isConnectedTo on a possibly null list: a null list is connected to no item. */
  predicate IsConnected(options: UCListItemOptions?, item: ItemId)
    reads options
  {
    options != null && options.IsConnectedTo(item)
  }

  /** After a non-Action, appended Actions are dropped until the list is cleared. */
  method FailureLatch(bad: ObjectId, good: ObjectId) returns (countAfterBad: nat, countAfterClear: nat)
    ensures countAfterBad == 0 && countAfterClear == 1
  {
    var options := new UCListItemOptions();
    options.Append(good, true);
    options.Append(bad, false);
    options.Append(good, true);
    countAfterBad := options.Count();
    options.Clear();
    options.Append(good, true);
    countAfterClear := options.Count();
  }

  /**
   * A second item asking for a held panel is refused and queued; once the
   * holder lets go, the panel passes to the queued item and the queue empties.
   */
  method QueuedItemTakesOver(first: ItemId, second: ItemId, canCreate: bool)
    returns (firstOk: bool, secondOk: bool, holderAfter: Option<ItemId>, queueAfter: Option<ItemId>)
    requires first != second
    ensures firstOk == canCreate && !secondOk
    ensures canCreate ==> holderAfter == Some(second) && queueAfter == None
    ensures !canCreate ==> holderAfter == None
  {
    var options := new UCListItemOptions();
    firstOk := options.Connect(first, true, canCreate);
    secondOk := options.Connect(second, false, canCreate);
    options.Disconnect(false);
    holderAfter := options.panelParent;
    queueAfter := options.queuedItem;
  }
}
