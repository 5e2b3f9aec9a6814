// ActionManagement (actionsproxy_p.cpp): the registry of local action
// contexts. It watches each registered context's activation and keeps at
// most one of them current, publishing the actions of the context that
// becomes active and clearing those of the one that stops being current.
module ActionsProxy {
  import opened Common

  /** An action context, by identity; the null context is an Option. */
  type ContextId = nat

  /** What the proxy tells the system: a context's actions published or cleared. */
  datatype ActionEvent = Published(context: ContextId) | Cleared(context: ContextId)

  class ActionManagement {
    const globalContext: ContextId
    /** Never set in this file, so the global context is published on every request. */
    var globalPublished: bool
    var localContexts: set<ContextId>
    /** The contexts whose activeChanged signal reaches handleContextActivation. */
    var watched: set<ContextId>
    /** The contexts whose `active` property is set. */
    var active: set<ContextId>
    var activeContext: Option<ContextId>
    var trace: seq<ActionEvent>

    /**
     * Exactly the local contexts are watched, and the current context, when
     * there is one, is a watched context that is active.
     */
    predicate Valid()
      reads this
    {
      watched == localContexts &&
      (activeContext.Some? ==> activeContext.value in active && activeContext.value in watched)
    }

    /** The instance: a global context, not yet published, and no local context. */
    constructor (global: ContextId, initiallyActive: set<ContextId>)
      ensures Valid()
      ensures globalContext == global && !globalPublished && active == initiallyActive
      ensures localContexts == {} && watched == {} && activeContext == None && trace == []
    {
      globalContext, globalPublished := global, false;
      localContexts, watched, active := {}, {}, initiallyActive;
      activeContext, trace := None, [];
    }

    /**
     * UCActionContext::setActive: only a change of value is announced, and
     * the announcement reaches the handler, within this call, when the
     * context is watched.
     */
    method SetContextActive(context: ContextId, value: bool)
      requires Valid()
      modifies this`active, this`activeContext, this`trace
      ensures Valid()
      ensures (context in old(active)) == value || context !in watched ==>
        activeContext == old(activeContext) && trace == old(trace) &&
        active == (if value then old(active) + {context} else old(active) - {context})
      ensures (context in old(active)) != value && context in watched && value ==>
        activeContext == Some(context) &&
        match old(activeContext)
        case None => active == old(active) + {context} && trace == old(trace) + [Published(context)]
        case Some(previous) =>
          active == old(active) + {context} - {previous} &&
          trace == old(trace) + [Cleared(previous), Published(context)]
      ensures (context in old(active)) != value && context in watched && !value ==>
        activeContext == None && active == old(active) - {context} &&
        trace == old(trace) + (if old(activeContext).Some? then [Cleared(old(activeContext).value)] else [])
      decreases if value then 4 else 2
    {
      if (context in active) == value {
        return;
      }
      active := if value then active + {context} else active - {context};
      if context in watched {
        HandleContextActivation(context, value);
      }
    }

    /**
     * handleContextActivation, for a signal from `context`: a deactivation
     * while some context is current clears that context, whichever context
     * sent it; an activation first deactivates the current context, then
     * publishes the new one and makes it current.
     */
    method HandleContextActivation(context: ContextId, isActive: bool)
      requires watched == localContexts && context in watched
      requires activeContext.Some? ==>
        activeContext.value in watched && (activeContext.value in active || activeContext.value == context)
      requires isActive ==> context in active && activeContext != Some(context)
      modifies this`active, this`activeContext, this`trace
      ensures Valid()
      ensures isActive ==>
        activeContext == Some(context) &&
        match old(activeContext)
        case None => active == old(active) && trace == old(trace) + [Published(context)]
        case Some(previous) =>
          active == old(active) - {previous} && trace == old(trace) + [Cleared(previous), Published(context)]
      ensures !isActive ==>
        active == old(active) && activeContext == None &&
        trace == old(trace) + (if old(activeContext).Some? then [Cleared(old(activeContext).value)] else [])
      decreases if isActive then 3 else 1
    {
      if activeContext.Some? {
        if !isActive {
          trace := trace + [Cleared(activeContext.value)];
          activeContext := None;
          return;
        } else {
          // This re-enters the handler with isActive false, which clears the current context.
          SetContextActive(activeContext.value, false);
        }
      }
      if isActive {
        trace := trace + [Published(context)];
        activeContext := Some(context);
      }
    }

    /** addContext: null and registered contexts are ignored; any other is registered and watched. */
    method AddContext(context: Option<ContextId>)
      requires Valid()
      modifies this`localContexts, this`watched
      ensures Valid()
      ensures context.None? || context.value in old(localContexts) ==>
        localContexts == old(localContexts) && watched == old(watched)
      ensures context.Some? ==> localContexts == old(localContexts) + {context.value}
    {
      if context.None? {
        return;
      }
      if context.value in localContexts {
        return;
      }
      localContexts := localContexts + {context.value};
      watched := watched + {context.value};
    }

    /**
     * removeContext: a null context is ignored; any other is deactivated
     * (clearing it when it was current), no longer watched and unregistered.
     */
    method RemoveContext(context: Option<ContextId>)
      requires Valid()
      modifies this`localContexts, this`watched, this`active, this`activeContext, this`trace
      ensures Valid()
      ensures context.None? ==>
        localContexts == old(localContexts) && active == old(active) &&
        activeContext == old(activeContext) && trace == old(trace)
      ensures context.Some? ==>
        localContexts == old(localContexts) - {context.value} && active == old(active) - {context.value}
      ensures context.Some? && context.value in old(active) && context.value in old(watched) ==>
        activeContext == None &&
        trace == old(trace) + (if old(activeContext).Some? then [Cleared(old(activeContext).value)] else [])
      ensures context.Some? && !(context.value in old(active) && context.value in old(watched)) ==>
        activeContext == old(activeContext) && trace == old(trace)
    {
      if context.None? {
        return;
      }
      SetContextActive(context.value, false);
      watched := watched - {context.value};
      localContexts := localContexts - {context.value};
    }

    /** publishGlobalContext: publishes the global context unless it is marked published. */
    method PublishGlobalContext()
      modifies this`trace
      ensures trace == old(trace) + (if globalPublished then [] else [Published(globalContext)])
    {
      if !globalPublished {
        trace := trace + [Published(globalContext)];
      }
    }

    /** The destructor: a current context is deactivated, then the global context is cleared. */
    method Shutdown()
      requires Valid()
      modifies this`active, this`activeContext, this`trace
      ensures activeContext == None
      ensures active == old(active) - (if old(activeContext).Some? then {old(activeContext).value} else {})
      ensures trace == old(trace) +
        (if old(activeContext).Some? then [Cleared(old(activeContext).value)] else []) + [Cleared(globalContext)]
    {
      if activeContext.Some? {
        SetContextActive(activeContext.value, false);
      }
      trace := trace + [Cleared(globalContext)];
    }
  }

  /**
   * Activating one registered context and then another publishes the first,
   * then clears and deactivates it before publishing the second.
   */
  method SwitchContexts() returns (trace: seq<ActionEvent>, firstActive: bool, current: Option<ContextId>)
    ensures trace == [Published(1), Cleared(1), Published(2)]
    ensures !firstActive && current == Some(2)
  {
    var am := new ActionManagement(0, {});
    am.AddContext(Some(1));
    am.AddContext(Some(2));
    am.SetContextActive(1, true);
    am.SetContextActive(2, true);
    trace, firstActive, current := am.trace, 1 in am.active, am.activeContext;
  }

  /**
   * A context that was already active when registered and is deactivated
   * later clears the current context, which itself stays active.
   */
  method DeactivationFromAnotherContext() returns (current: Option<ContextId>, stillActive: bool, trace: seq<ActionEvent>)
    ensures current == None && stillActive && trace == [Published(1), Cleared(1)]
  {
    var am := new ActionManagement(0, {3});
    am.AddContext(Some(1));
    am.AddContext(Some(3));
    am.SetContextActive(1, true);
    am.SetContextActive(3, false);
    current, stillActive, trace := am.activeContext, 1 in am.active, am.trace;
  }

  /**
   * Removing a registered context that is active but not current still
   * reaches the handler and clears the current context.
   */
  method RemoveActiveNonCurrent() returns (current: Option<ContextId>, trace: seq<ActionEvent>, locals: set<ContextId>)
    ensures current == None && trace == [Published(1), Cleared(1)] && locals == {1}
  {
    var am := new ActionManagement(0, {3});
    am.AddContext(Some(1));
    am.AddContext(Some(3));
    am.SetContextActive(1, true);
    am.RemoveContext(Some(3));
    current, trace, locals := am.activeContext, am.trace, am.localContexts;
  }

  /** Since the flag is never set, asking twice publishes the global context twice. */
  method PublishGlobalTwice() returns (trace: seq<ActionEvent>)
    ensures trace == [Published(0), Published(0)]
  {
    var am := new ActionManagement(0, {});
    am.PublishGlobalContext();
    am.PublishGlobalContext();
    trace := am.trace;
  }
}
