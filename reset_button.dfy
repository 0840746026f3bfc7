/**
 * The two-state reset button (src/components/ResetButton.js): a first click
 * asks for confirmation, a second click resets; a three-second timer armed
 * by the first click returns the button to its idle state. The timer is
 * never cancelled.
 */
module ResetButtonComponent {

  /** What can happen to the button: a click, or one of its armed timers firing. */
  datatype Event = Click | TimerFired

  /** `isConfirming` after one event. */
  function NextConfirming(confirming: bool, ev: Event): bool {
    match ev
    case Click => !confirming
    case TimerFired => false
  }

  /** Whether the event calls `onReset`: only a click while confirming does. */
  function CallsOnReset(confirming: bool, ev: Event): bool {
    ev == Click && confirming
  }

  /** `isConfirming` after the events `evs`, starting idle. */
  function ConfirmingAfter(evs: seq<Event>): bool
    decreases |evs|
  {
    if evs == [] then false else NextConfirming(ConfirmingAfter(evs[..|evs| - 1]), evs[|evs| - 1])
  }

  /** Whether event `k` of `evs` calls `onReset`. */
  function ResetAt(evs: seq<Event>, k: nat): bool
    requires k < |evs|
  {
    CallsOnReset(ConfirmingAfter(evs[..k]), evs[k])
  }

  /**
   * A reset happens exactly at a click that follows a click which did not
   * itself reset: two clicks with no timer expiry between them.
   */
  lemma ResetNeedsTwoClicks(evs: seq<Event>, k: nat)
    requires k < |evs|
    ensures ResetAt(evs, k) <==> 1 <= k && evs[k - 1] == Click && evs[k] == Click && !ResetAt(evs, k - 1)
  {
    if 1 <= k {
      assert evs[..k][..k - 1] == evs[..k - 1];
    }
  }

  /** The number of events of `evs` that call `onReset`. */
  function Resets(evs: seq<Event>): nat
    decreases |evs|
  {
    if evs == [] then 0
    else Resets(evs[..|evs| - 1]) + (if ResetAt(evs, |evs| - 1) then 1 else 0)
  }

  /** The number of clicks in `evs`. */
  function Clicks(evs: seq<Event>): nat
    decreases |evs|
  {
    if evs == [] then 0 else Clicks(evs[..|evs| - 1]) + (if evs[|evs| - 1] == Click then 1 else 0)
  }

  /** Every reset costs two clicks of its own; a pending confirmation one more. */
  lemma {:induction false} TwoClicksPerReset(evs: seq<Event>)
    ensures 2 * Resets(evs) + (if ConfirmingAfter(evs) then 1 else 0) <= Clicks(evs)
    decreases |evs|
  {
    if evs != [] {
      var front := evs[..|evs| - 1];
      TwoClicksPerReset(front);
      assert evs[..|evs| - 1] == front;
    }
  }

  /** The button's text. */
  function Label(confirming: bool): (text: string)
    ensures confirming <==> text == "Confirm Reset"
    ensures !confirming <==> text == "Reset"
  {
    if confirming then "Confirm Reset" else "Reset"
  }

  /** The button's tooltip. */
  function Title(confirming: bool): (tip: string)
    ensures confirming <==> tip == "Click again to confirm"
    ensures !confirming <==> tip == "Reset conversation"
  {
    if confirming then "Click again to confirm" else "Reset conversation"
  }

  /** Text and tooltip depend on the state alone and tell the two states apart. */
  lemma LabelShowsState(a: bool, b: bool)
    ensures Label(a) == Label(b) <==> a == b
    ensures Title(a) == Title(b) <==> a == b
  {
    assert Label(true)[0] != Label(false)[0];
    assert Title(true)[0] != Title(false)[0];
  }

  /** The `ResetButton` component: its one state variable and the timers it has armed. */
  class ResetButton {
    var isConfirming: bool
    /** Timeouts scheduled by earlier clicks that have not fired yet. */
    var armedTimers: nat

    constructor ()
      ensures !isConfirming && armedTimers == 0
    {
      isConfirming := false;
      armedTimers := 0;
    }

    /** `handleClick`; `callsOnReset` says whether it called `onReset`. */
    method HandleClick() returns (callsOnReset: bool)
      modifies this
      ensures callsOnReset == CallsOnReset(old(isConfirming), Click)
      ensures isConfirming == NextConfirming(old(isConfirming), Click)
      ensures armedTimers == if old(isConfirming) then old(armedTimers) else old(armedTimers) + 1
    {
      if isConfirming {
        callsOnReset := true;
        isConfirming := false;
      } else {
        callsOnReset := false;
        isConfirming := true;
        armedTimers := armedTimers + 1;
      }
    }

    /** One armed timer fires, whichever click armed it. */
    method OnTimeout()
      requires armedTimers > 0
      modifies this
      ensures isConfirming == NextConfirming(old(isConfirming), TimerFired)
      ensures armedTimers == old(armedTimers) - 1
    {
      isConfirming := false;
      armedTimers := armedTimers - 1;
    }
  }

  /**
   * A stale timer: the timer armed by a first click, after a confirmed reset
   * and a new first click, still returns the button to idle.
   */
  method StaleTimerCancelsNewConfirmation() returns (b: ResetButton)
    ensures !b.isConfirming && b.armedTimers == 1
  {
    b := new ResetButton();
    var called := b.HandleClick();
    assert !called;
    called := b.HandleClick();
    assert called;
    called := b.HandleClick();
    assert !called && b.isConfirming && b.armedTimers == 2;
    b.OnTimeout();
  }
}
