/**
 The latching one-slot signal behind `OneShot`, `Notify` and every channel (src/sync.rs), and
 the two hand-rolled races of src/runtime.rs.

 A race is driven by a sequence of turns, one per wake-up of the racing task. Each turn says
 what the environment did since the previous poll. The order of the two polls inside a turn is
 the source's, and it decides which tokens are consumed.
 */
module Signals {
  import opened Prelude

  class Signal<T> {
    var slot: Option<T>

    constructor ()
      ensures slot == None
    {
      slot := None;
    }

    method Set(value: T)
      modifies this
      ensures slot == Some(value)
    {
      slot := Some(value);
    }

    /** A ready poll takes the value, a pending poll leaves the slot alone. */
    method Poll() returns (r: Option<T>)
      modifies this
      ensures r == old(slot)
      ensures slot == None
    {
      r := slot;
      slot := None;
    }
  }

  /** One wake-up of `with_cancel`: whether `notify` landed since the last poll and whether the
      raced future is ready now. */
  datatype CancelTurn<+V> = CancelTurn(notified: bool, ready: Option<V>)

  datatype Cancellable<+V> = Done(value: V) | Cancelled | StillRacing

  /** Nothing has decided the race in the first `n` turns. */
  ghost predicate Undecided<V>(latched: bool, turns: seq<CancelTurn<V>>, n: nat)
    requires n <= |turns|
  {
    && (n > 0 ==> !latched)
    && forall i :: 0 <= i < n ==> turns[i].ready.None? && !turns[i].notified
  }

  /** A cancellation token is present at turn `k` of a race that reached it. */
  ghost predicate TokenAt<V>(latched: bool, turns: seq<CancelTurn<V>>, k: nat)
    requires k < |turns|
  {
    latched || turns[k].notified
  }

  /**
   `with_cancel`: the future is polled before the token.

   The race ends at the first turn at which either side is ready. A ready future wins even
   against a latched token, and then the token stays latched for the next wait. Only a
   cancellation consumes it.
   */
  method WithCancel<V>(cancel: Signal<()>, turns: seq<CancelTurn<V>>) returns (r: Cancellable<V>, used: nat)
    modifies cancel
    ensures used <= |turns|
    ensures r.StillRacing? ==> used == |turns| && Undecided(old(cancel.slot).Some?, turns, used)
                               && cancel.slot == old(cancel.slot)
    ensures !r.StillRacing? ==> used > 0 && Undecided(old(cancel.slot).Some?, turns, used - 1)
    ensures r.Done? ==> turns[used - 1].ready == Some(r.value)
                        && cancel.slot.Some? == TokenAt(old(cancel.slot).Some?, turns, used - 1)
    ensures r.Cancelled? ==> turns[used - 1].ready.None?
                             && TokenAt(old(cancel.slot).Some?, turns, used - 1)
                             && cancel.slot == None
  {
    used := 0;
    while used < |turns|
      invariant used <= |turns|
      invariant Undecided(old(cancel.slot).Some?, turns, used)
      invariant cancel.slot == old(cancel.slot)
    {
      var turn := turns[used];
      used := used + 1;
      if turn.notified {
        cancel.Set(());
      }
      if turn.ready.Some? {
        return Done(turn.ready.value), used;
      }
      var token := cancel.Poll();
      if token.Some? {
        return Cancelled, used;
      }
    }
    r := StillRacing;
  }

  datatype Timed<+V> = InTime(value: V) | Elapsed | StillWaiting

  /** One wake-up of `with_timeout`: whether the raced future is ready now and whether the timer has
      elapsed by now. */
  datatype TimerTurn<+V> = TimerTurn(ready: Option<V>, elapsed: bool)

  /** `with_timeout` over any future: it ends at the first turn at which either side is ready, and a
      future that is ready at that turn wins even past the deadline. */
  method WithTimeout<V>(turns: seq<TimerTurn<V>>) returns (r: Timed<V>, used: nat)
    ensures used <= |turns| && (r.StillWaiting? ==> used == |turns|) && (!r.StillWaiting? ==> used > 0)
    ensures forall i :: 0 <= i < (if r.StillWaiting? then used else used - 1) ==>
              turns[i].ready.None? && !turns[i].elapsed
    ensures r.InTime? ==> turns[used - 1].ready == Some(r.value)
    ensures r.Elapsed? ==> turns[used - 1].ready.None? && turns[used - 1].elapsed
  {
    used := 0;
    while used < |turns|
      invariant used <= |turns|
      invariant forall i :: 0 <= i < used ==> turns[i].ready.None? && !turns[i].elapsed
    {
      var turn := turns[used];
      used := used + 1;
      if turn.ready.Some? {
        return InTime(turn.ready.value), used;
      }
      if turn.elapsed {
        return Elapsed, used;
      }
    }
    r := StillWaiting;
  }

  /** One wake-up of `with_timeout` over a signal: the value set since the last poll, if any, and
      whether the timer has elapsed by now. */
  datatype TimeoutTurn<+T> = TimeoutTurn(sent: Option<T>, elapsed: bool)

  ghost predicate Quiet<T>(slot: Option<T>, turns: seq<TimeoutTurn<T>>, n: nat)
    requires n <= |turns|
  {
    && (n > 0 ==> slot.None?)
    && forall i :: 0 <= i < n ==> turns[i].sent.None? && !turns[i].elapsed
  }

  /** What the slot holds when turn `k` polls it: the latest value signalled. */
  function SlotAt<T>(slot: Option<T>, turns: seq<TimeoutTurn<T>>, k: nat): Option<T>
    requires k < |turns|
  {
    if turns[k].sent.Some? then turns[k].sent else slot
  }

  /**
   `with_timeout` over `signal.wait()`: the signal is polled before the timer, so a value that is
   already latched is returned even when the deadline has passed, and a timeout never throws a
   latched value away.
   */
  method WaitWithTimeout<T>(signal: Signal<T>, turns: seq<TimeoutTurn<T>>) returns (r: Timed<T>, used: nat)
    modifies signal
    ensures used <= |turns|
    ensures signal.slot == if used == 0 then old(signal.slot) else None
    ensures r.StillWaiting? ==> used == |turns| && Quiet(old(signal.slot), turns, used)
    ensures !r.StillWaiting? ==> used > 0 && Quiet(old(signal.slot), turns, used - 1)
    ensures r.InTime? ==> SlotAt(old(signal.slot), turns, used - 1) == Some(r.value)
    ensures r.Elapsed? ==> SlotAt(old(signal.slot), turns, used - 1) == None && turns[used - 1].elapsed
  {
    used := 0;
    while used < |turns|
      invariant used <= |turns|
      invariant Quiet(old(signal.slot), turns, used)
      invariant signal.slot == old(signal.slot)
    {
      var turn := turns[used];
      used := used + 1;
      if turn.sent.Some? {
        signal.Set(turn.sent.value);
      }
      var value := signal.Poll();
      if value.Some? {
        return InTime(value.value), used;
      }
      if turn.elapsed {
        return Elapsed, used;
      }
    }
    r := StillWaiting;
  }
}
