// BottomEdgeHint (ucbottomedgehint.cpp): the hint at the bottom of a page
// whose status moves between Hidden, Inactive, Active and Locked through
// swipes, a deactivation timer, a flickable's movement and an attached
// mouse, and which clicks only while Active or Locked.
module BottomEdgeHint {
  import opened Common

  /** Status, in the order the comparisons of the source use. */
  datatype Status = Hidden | Inactive | Active | Locked

  function Rank(s: Status): nat
  {
    match s
    case Hidden => 0
    case Inactive => 1
    case Active => 2
    case Locked => 3
  }

  /** status >= Active. */
  predicate Clickable(s: Status)
  {
    Rank(s) >= Rank(Active)
  }

  datatype HintEvent = StatusChanged | Clicked | DeactivateTimeoutChanged | FlickableChanged

  /** The default deactivateTimeout, in milliseconds. */
  const DefaultDeactivateTimeout: int := 800

  type ObjectId = nat

  class UCBottomEdgeHint {
    var status: Status
    var deactivateTimeout: int
    var pressed: bool
    /** The deactivation timer: whether it runs, and with which interval. */
    var timerActive: bool
    var timerInterval: int
    /** Whether the system reports a mouse (QuickUtils::mouseAttached). */
    var mouseAttached: bool
    var flickable: Option<ObjectId>
    var itemState: string
    var events: seq<HintEvent>

    /**
     * With a mouse attached the hint stays Locked; the deactivation timer
     * runs only while Active, with the current timeout; the timeout is never
     * negative.
     */
    predicate Valid()
      reads this
    {
      (mouseAttached ==> status == Locked) &&
      (timerActive ==> status == Active && timerInterval == deactivateTimeout) &&
      deactivateTimeout >= 0
    }

    /** Locked when a mouse is attached, Inactive otherwise. */
    constructor (mouse: bool)
      ensures Valid()
      ensures status == (if mouse then Locked else Inactive) && mouseAttached == mouse
      ensures deactivateTimeout == DefaultDeactivateTimeout && !pressed && !timerActive
      ensures flickable == None && events == []
    {
      status := if mouse then Locked else Inactive;
      mouseAttached := mouse;
      deactivateTimeout := DefaultDeactivateTimeout;
      pressed, timerActive, timerInterval := false, false, 0;
      flickable, itemState, events := None, "", [];
    }

    /**
     * setStatus: ignored for the current value, and for anything but Locked
     * while a mouse is attached; an accepted change to anything but Active
     * stops the timer.
     */
    method SetStatus(s: Status)
      requires Valid()
      modifies this`status, this`timerActive, this`events
      ensures Valid()
      ensures s == old(status) || (s != Locked && mouseAttached) ==>
        status == old(status) && timerActive == old(timerActive) && events == old(events)
      ensures !(s == old(status) || (s != Locked && mouseAttached)) ==>
        status == s && timerActive == (old(timerActive) && s == Active) && events == old(events) + [StatusChanged]
    {
      if s == status || (s != Locked && mouseAttached) {
        return;
      }
      status := s;
      if s != Active && timerActive {
        timerActive := false;
      }
      events := events + [StatusChanged];
    }

    /** status(): stores Locked while a mouse is attached; under Valid that is already the status. */
    method GetStatus() returns (s: Status)
      requires Valid()
      modifies this`status
      ensures Valid()
      ensures s == status && status == old(status)
      ensures mouseAttached ==> s == Locked
    {
      if mouseAttached {
        status := Locked;
      }
      s := status;
    }

    /** Starting the deactivation timer with the current timeout (restarting it when running). */
    method StartTimer()
      requires Valid() && status == Active
      modifies this`timerActive, this`timerInterval
      ensures Valid() && timerActive && timerInterval == deactivateTimeout
    {
      timerActive, timerInterval := true, deactivateTimeout;
    }

    /** timerEvent for the deactivation timer: back to Inactive, timer stopped. */
    method DeactivationTimeout()
      requires Valid()
      modifies this`status, this`timerActive, this`events
      ensures Valid() && !timerActive
      ensures !mouseAttached && old(status) != Inactive ==> status == Inactive && events == old(events) + [StatusChanged]
      ensures mouseAttached || old(status) == Inactive ==> status == old(status) && events == old(events)
    {
      SetStatus(Inactive);
      timerActive := false;
    }

    /** keyPressEvent: Enter and Return click while status() is at least Active. */
    method KeyPress(key: int)
      requires Valid()
      modifies this`status, this`events
      ensures Valid() && status == old(status)
      ensures Clickable(status) && (key == KeyEnter || key == KeyReturn) ==> events == old(events) + [Clicked]
      ensures !(Clickable(status) && (key == KeyEnter || key == KeyReturn)) ==> events == old(events)
    {
      var s := GetStatus();
      if Clickable(s) && (key == KeyEnter || key == KeyReturn) {
        events := events + [Clicked];
      }
    }

    /** mousePressEvent: a press inside while at least Active is taken; the flag is never cleared. */
    method MousePress(inside: bool)
      modifies this`pressed
      ensures pressed == (old(pressed) || (inside && Clickable(status)))
    {
      if inside && Clickable(status) {
        pressed := true;
      }
    }

    /** mouseReleaseEvent: clicks after a taken press while at least Active. */
    method MouseRelease()
      modifies this`events
      ensures pressed && Clickable(status) ==> events == old(events) + [Clicked]
      ensures !(pressed && Clickable(status)) ==> events == old(events)
    {
      if pressed && Clickable(status) {
        events := events + [Clicked];
      }
    }

    /** onBottomUpSwipeDetected: the timer stops and the hint turns Active (unless a mouse keeps it Locked). */
    method BottomUpSwipeDetected()
      requires Valid()
      modifies this`status, this`timerActive, this`events
      ensures Valid() && !timerActive
      ensures !mouseAttached ==> status == Active
      ensures mouseAttached ==> status == Locked
      ensures events == old(events) + (if mouseAttached || old(status) == Active then [] else [StatusChanged])
    {
      timerActive := false;
      SetStatus(Active);
    }

    /** onGestureStatusChanged: a completed gesture while Active starts the deactivation timer. */
    method GestureStatusChanged(completed: bool)
      requires Valid()
      modifies this`timerActive, this`timerInterval
      ensures Valid()
      ensures completed && status == Active ==> timerActive && timerInterval == deactivateTimeout
      ensures !(completed && status == Active) ==> timerActive == old(timerActive) && timerInterval == old(timerInterval)
    {
      if completed && status == Active {
        StartTimer();
      }
    }

    /** The mouseAttachedChanged handler: Locked with a mouse, Active without, with the timer started then. */
    method MouseAttachedChanged(attached: bool)
      requires Valid()
      modifies this`mouseAttached, this`status, this`timerActive, this`timerInterval, this`events
      ensures Valid() && mouseAttached == attached
      ensures attached ==> status == Locked && !timerActive && timerInterval == old(timerInterval)
      ensures attached ==> events == old(events) + (if old(status) == Locked then [] else [StatusChanged])
      ensures !attached ==> status == Active && timerActive && timerInterval == deactivateTimeout
      ensures !attached ==> events == old(events) + (if old(status) == Active then [] else [StatusChanged])
    {
      // Locked is accepted whatever the mouse, so setting it before the flag changes is the same.
      if attached {
        SetStatus(Locked);
        mouseAttached := true;
      } else {
        mouseAttached := false;
        SetStatus(Active);
      }
      if status == Active {
        StartTimer();
      }
    }

    /**
     * handleFlickableActivation: below Locked, with no gesture detecting and
     * the timer idle, a moving flickable hides the hint and a stopped one
     * shows a hidden hint again, Inactive.
     */
    method FlickableActivation(detecting: bool, moving: bool)
      requires Valid()
      modifies this`status, this`timerActive, this`events
      ensures Valid() && timerActive == old(timerActive)
      ensures var gated := Rank(old(status)) < Rank(Locked) && !detecting && !old(timerActive);
        (gated && moving ==>
          status == Hidden && events == old(events) + (if old(status) == Hidden then [] else [StatusChanged])) &&
        (gated && !moving && old(status) == Hidden ==>
          status == Inactive && events == old(events) + [StatusChanged]) &&
        (!gated || (!moving && old(status) != Hidden) ==> status == old(status) && events == old(events))
    {
      if Rank(status) < Rank(Locked) && !detecting && !timerActive {
        if moving {
          SetStatus(Hidden);
        } else if status == Hidden {
          SetStatus(Inactive);
        }
      }
    }

    /** setFlickable: the same flickable changes nothing. */
    method SetFlickable(f: Option<ObjectId>)
      modifies this`flickable, this`events
      ensures flickable == f
      ensures f == old(flickable) ==> events == old(events)
      ensures f != old(flickable) ==> events == old(events) + [FlickableChanged]
    {
      if f == flickable {
        return;
      }
      flickable := f;
      events := events + [FlickableChanged];
    }

    /**
     * The deprecated setState: the item state is stored, and with a style
     * item "Hidden" sets Hidden and "Visible" sets Inactive.
     */
    method SetState(state: string, hasStyle: bool)
      requires Valid()
      modifies this`itemState, this`status, this`timerActive, this`events
      ensures Valid() && itemState == state
      ensures hasStyle && state == "Hidden" && !mouseAttached ==>
        status == Hidden && !timerActive && events == old(events) + (if old(status) == Hidden then [] else [StatusChanged])
      ensures hasStyle && state == "Visible" && !mouseAttached ==>
        status == Inactive && !timerActive && events == old(events) + (if old(status) == Inactive then [] else [StatusChanged])
      ensures !hasStyle || (state != "Hidden" && state != "Visible") ==>
        status == old(status) && timerActive == old(timerActive) && events == old(events)
      ensures mouseAttached ==> status == Locked && timerActive == old(timerActive) && events == old(events)
    {
      itemState := state;
      if !hasStyle {
        return;
      }
      if state == "Hidden" {
        SetStatus(Hidden);
      }
      if state == "Visible" {
        SetStatus(Inactive);
      }
    }

    /**
     * setDeactivateTimeout: negative and unchanged values are ignored; a
     * running timer restarts with the new interval.
     */
    method SetDeactivateTimeout(timeout: int)
      requires Valid()
      modifies this`deactivateTimeout, this`timerInterval, this`events
      ensures Valid()
      ensures timeout == old(deactivateTimeout) || timeout < 0 ==>
        deactivateTimeout == old(deactivateTimeout) && timerInterval == old(timerInterval) && events == old(events)
      ensures !(timeout == old(deactivateTimeout) || timeout < 0) ==>
        deactivateTimeout == timeout && events == old(events) + [DeactivateTimeoutChanged] &&
        (timerActive ==> timerInterval == timeout) && (!timerActive ==> timerInterval == old(timerInterval))
    {
      if timeout == deactivateTimeout || timeout < 0 {
        return;
      }
      deactivateTimeout := timeout;
      if timerActive {
        timerInterval := deactivateTimeout;
      }
      events := events + [DeactivateTimeoutChanged];
    }
  }

  /**
   * A swipe activates the hint, the finished gesture starts the timer, and
   * its expiry makes the hint Inactive again, so that it no longer clicks.
   */
  method SwipeThenTimeout() returns (clickableAfterSwipe: bool, statusAfterTimeout: Status, clicks: seq<HintEvent>)
    ensures clickableAfterSwipe && statusAfterTimeout == Inactive
    ensures clicks == [StatusChanged, StatusChanged]
  {
    var hint := new UCBottomEdgeHint(false);
    hint.BottomUpSwipeDetected();
    clickableAfterSwipe := Clickable(hint.status);
    hint.GestureStatusChanged(true);
    hint.DeactivationTimeout();
    statusAfterTimeout := hint.status;
    hint.KeyPress(KeyEnter);
    clicks := hint.events;
  }

  /** With a mouse attached no request leaves Locked, and Enter keeps clicking. */
  method MouseKeepsLocked() returns (s: Status, clicks: seq<HintEvent>)
    ensures s == Locked && clicks == [Clicked]
  {
    var hint := new UCBottomEdgeHint(true);
    hint.SetStatus(Hidden);
    hint.FlickableActivation(false, true);
    hint.SetState("Visible", true);
    hint.DeactivationTimeout();
    hint.KeyPress(KeyReturn);
    s := hint.status;
    clicks := hint.events;
  }
}
