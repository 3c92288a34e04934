/**
 The closable unbounded channel of src/sync.rs: a locked queue, a `closed` flag that is not
 covered by the lock, and a latching signal.

 `Sys` is the channel shared by any number of senders and closers and one receiver, one step per shared
 access. `Chan` is the object; each of its methods takes the steps of `Sys` that make it up.
 */
module Channel {
  import opened Prelude
  import opened Signals

  datatype Poll<+T> = Pending | Ready(value: Option<T>)

  /** Where the receiver is. `EmptyLocked` holds the queue lock: it has found the queue empty and
      has not yet read the flag. */
  datatype Rx<+T> =
    | Idle
    | Checking
    | EmptyLocked
    | Waiting
    | Returned(value: Option<T>)

  /**
   A channel and everyone using it.

   `unsignalled` counts senders between their push and their signal, `unannounced` closers between
   their store and their signal. `pushed`, `popped` and `atClose` are histories: everything ever
   pushed, everything ever popped, and what had been pushed when the channel was first closed.
   */
  datatype Sys<T> = Sys(
    queue: seq<T>, closed: bool, signal: bool,
    unsignalled: nat, unannounced: nat,
    rx: Rx<T>,
    pushed: seq<T>, popped: seq<T>, atClose: Option<seq<T>>)

  datatype Label<T> =
    | Push(value: T)
    | SignalSend
    | StoreClosed
    | SignalClose
    | CallRecv
    | PopFront
    | LoadClosed
    | TakeSignal
    | DropRecv

  function Fresh<T>(): Sys<T> {
    Sys([], false, false, 0, 0, Idle, [], [], None)
  }

  predicate Enabled<T>(s: Sys<T>, l: Label<T>) {
    match l
    case Push(_) => !s.rx.EmptyLocked?
    case SignalSend => s.unsignalled > 0
    case StoreClosed => true
    case SignalClose => s.unannounced > 0
    case CallRecv => s.rx.Idle? || s.rx.Returned?
    case PopFront => s.rx.Checking?
    case LoadClosed => s.rx.EmptyLocked?
    case TakeSignal => s.rx.Waiting? && s.signal
    case DropRecv => s.rx.Checking? || s.rx.Waiting?
  }

  /** One step. A push needs the queue lock, which the receiver holds in `EmptyLocked`; a close
      needs no lock at all. */
  function Step<T>(s: Sys<T>, l: Label<T>): Sys<T>
    requires Enabled(s, l)
  {
    match l
    case Push(v) => s.(queue := s.queue + [v], pushed := s.pushed + [v], unsignalled := s.unsignalled + 1)
    case SignalSend => s.(signal := true, unsignalled := s.unsignalled - 1)
    case StoreClosed =>
      s.(closed := true, unannounced := s.unannounced + 1,
         atClose := if s.atClose.None? then Some(s.pushed) else s.atClose)
    case SignalClose => s.(signal := true, unannounced := s.unannounced - 1)
    case CallRecv => s.(rx := Checking)
    case PopFront =>
      if s.queue == [] then s.(rx := EmptyLocked)
      else s.(queue := s.queue[1..], popped := s.popped + [s.queue[0]], rx := Returned(Some(s.queue[0])))
    case LoadClosed => s.(rx := if s.closed then Returned(None) else Waiting)
    case TakeSignal => s.(signal := false, rx := Checking)
    case DropRecv => s.(rx := Idle)
  }

  /** What the receiver's own steps do when nobody interferes: run until it returns or parks. */
  function RecvAlone<T>(s: Sys<T>): Sys<T>
    requires s.rx.Checking? || s.rx.EmptyLocked? || s.rx.Waiting?
    decreases s.signal, if s.rx.Waiting? then 0 else if s.rx.EmptyLocked? then 1 else 2
  {
    match s.rx
    case Checking => var t := Step(s, PopFront); if t.rx.Returned? then t else RecvAlone(t)
    case EmptyLocked => var t := Step(s, LoadClosed); if t.rx.Returned? then t else RecvAlone(t)
    case Waiting => if s.signal then RecvAlone(Step(s, TakeSignal)) else s
  }

  lemma {:induction false} RecvAloneResult<T>(s: Sys<T>)
    requires s.rx.Checking?
    ensures RecvAlone(s) ==
            if s.queue != [] || s.closed then
              if s.queue != [] then Step(s, PopFront) else s.(rx := Returned(None))
            else s.(signal := false, rx := Waiting)
    decreases s.signal
  {
    if s.queue == [] {
      var locked := Step(s, PopFront);
      var loaded := Step(locked, LoadClosed);
      assert RecvAlone(s) == RecvAlone(locked);
      if !s.closed {
        assert RecvAlone(locked) == RecvAlone(loaded);
        if s.signal {
          var again := Step(loaded, TakeSignal);
          assert RecvAlone(loaded) == RecvAlone(again);
          RecvAloneResult(again);
        }
      }
    }
  }

  ghost predicate Inv<T>(s: Sys<T>) {
    && s.pushed == s.popped + s.queue
    && (s.closed <==> s.atClose.Some?)
    && (s.atClose.Some? ==> s.atClose.value <= s.pushed)
    && (s.rx.EmptyLocked? ==> s.queue == [])
    && (s.rx.Waiting? && s.queue != [] ==> s.signal || s.unsignalled > 0)
    && (s.rx.Waiting? && s.closed ==> s.signal || s.unannounced > 0)
    && (s.rx == Returned(None) ==> s.atClose.Some? && s.atClose.value <= s.popped)
    && (s.rx.Returned? && s.rx.value.Some? ==> s.popped != [] && s.rx.value.value == s.popped[|s.popped| - 1])
  }

  lemma StepKeepsInv<T>(s: Sys<T>, l: Label<T>)
    requires Inv(s) && Enabled(s, l)
    ensures Inv(Step(s, l))
  {
    if l.PopFront? && s.queue != [] {
      assert s.popped + s.queue == (s.popped + [s.queue[0]]) + s.queue[1..];
    }
  }

  /** An undisturbed receiver keeps the invariant and pushes nothing. */
  lemma {:induction false} RecvAloneKeepsInv<T>(s: Sys<T>)
    requires Inv(s) && (s.rx.Checking? || s.rx.EmptyLocked? || s.rx.Waiting?)
    ensures Inv(RecvAlone(s)) && RecvAlone(s).pushed == s.pushed
    decreases s.signal, if s.rx.Waiting? then 0 else if s.rx.EmptyLocked? then 1 else 2
  {
    match s.rx
    case Checking =>
      StepKeepsInv(s, PopFront);
      if s.queue == [] {
        RecvAloneKeepsInv(Step(s, PopFront));
      }
    case EmptyLocked =>
      StepKeepsInv(s, LoadClosed);
      if !s.closed {
        RecvAloneKeepsInv(Step(s, LoadClosed));
      }
    case Waiting =>
      if s.signal {
        StepKeepsInv(s, TakeSignal);
        RecvAloneKeepsInv(Step(s, TakeSignal));
      }
  }

  ghost predicate IsRun<T>(run: seq<Sys<T>>, labels: seq<Label<T>>) {
    && |run| == |labels| + 1
    && run[0] == Fresh()
    && forall i :: 0 <= i < |labels| ==> Enabled(run[i], labels[i]) && run[i + 1] == Step(run[i], labels[i])
  }

  lemma {:induction false} RunKeepsInv<T>(run: seq<Sys<T>>, labels: seq<Label<T>>, i: nat)
    requires IsRun(run, labels) && i < |run|
    ensures Inv(run[i])
  {
    if i > 0 {
      RunKeepsInv(run, labels, i - 1);
      StepKeepsInv(run[i - 1], labels[i - 1]);
    }
  }

  /**
   Channel correctness over every interleaving of any number of senders and closers.

   What was popped is a prefix of what was pushed. A receiver that was told "closed" had
   received everything pushed before the close. A receiver parked with no signal latched is
   parked on an empty, open channel unless some sender or closer still owes its signal.
   */
  lemma ChannelCorrect<T>(run: seq<Sys<T>>, labels: seq<Label<T>>, i: nat)
    requires IsRun(run, labels) && i < |run|
    ensures run[i].popped <= run[i].pushed
    ensures run[i].rx == Returned(None) ==> run[i].atClose.Some? && run[i].atClose.value <= run[i].popped
    ensures run[i].rx.Waiting? && !run[i].signal && run[i].unsignalled == 0 && run[i].unannounced == 0
            ==> run[i].queue == [] && !run[i].closed
  {
    RunKeepsInv(run, labels, i);
  }

  /** The channel object. `sys` is the channel with everyone using it; `Valid` says the object holds
      what it says. A method is one actor's steps, taken without interruption. */
  class Chan<T> {
    var queue: seq<T>
    var closed: bool
    const signal: Signal<()>
    ghost var sys: Sys<T>

    ghost predicate Valid()
      reads this, signal
    {
      queue == sys.queue && closed == sys.closed && signal.slot.Some? == sys.signal
    }

    constructor ()
      ensures Valid() && sys == Fresh() && fresh(signal)
    {
      queue, closed, sys := [], false, Fresh();
      signal := new Signal();
    }

    method Send(value: T)
      requires Valid() && !sys.rx.EmptyLocked?
      modifies this, signal
      ensures Valid() && sys == Step(Step(old(sys), Push(value)), SignalSend)
    {
      queue := queue + [value];
      signal.Set(());
      sys := Step(Step(sys, Push(value)), SignalSend);
    }

    method Close()
      requires Valid()
      modifies this, signal
      ensures Valid() && sys == Step(Step(old(sys), StoreClosed), SignalClose)
    {
      closed := true;
      signal.Set(());
      sys := Step(Step(sys, StoreClosed), SignalClose);
    }

    ghost method Recv()
      requires Valid() && Enabled(sys, CallRecv)
      modifies this`sys
      ensures Valid() && sys == Step(old(sys), CallRecv)
    {
      sys := Step(sys, CallRecv);
    }

    /**
     One poll of `recv`, from the check of the queue or parked in the wait: check the queue, then
     the flag, then wait, and retry for as long as the wait is ready. What it returns is the next
     value in push order, or `None` once everything pushed before the close has been received; it
     parks only with nothing left to receive.
     */
    method PollRecv(parked: bool) returns (r: Poll<T>)
      requires Valid() && (if parked then sys.rx.Waiting? else sys.rx.Checking?)
      modifies this, signal
      ensures Valid() && sys == RecvAlone(old(sys))
      ensures sys.rx == if r.Pending? then Waiting else Returned(r.value)
      ensures r.Ready? && r.value.Some? ==> sys.popped == old(sys).popped + [r.value.value]
      ensures Inv(old(sys)) ==> sys.pushed == old(sys).pushed && sys.popped <= sys.pushed
      ensures Inv(old(sys)) && r.Ready? && r.value.None? ==> sys.atClose.Some? && sys.atClose.value <= sys.popped
      ensures r.Pending? ==> !sys.signal && (!parked || old(sys).signal ==> sys.queue == [] && !sys.closed)
    {
      if Inv(sys) {
        RecvAloneKeepsInv(sys);
      }
      if parked {
        var token := signal.Poll();
        if token.None? {
          return Pending;
        }
        sys := Step(sys, TakeSignal);
      }
      ghost var before := sys;
      RecvAloneResult(before);
      while true
        invariant sys == before && queue == sys.queue && closed == sys.closed
        invariant signal.slot.Some? == sys.signal || (!signal.slot.Some? && queue == [] && !closed)
        decreases signal.slot.Some?
      {
        if queue != [] {
          r := Ready(Some(queue[0]));
          queue := queue[1..];
          sys := RecvAlone(sys);
          return;
        }
        if closed {
          sys := RecvAlone(sys);
          return Ready(None);
        }
        var token := signal.Poll();
        if token.None? {
          sys := RecvAlone(sys);
          return Pending;
        }
      }
    }
  }
}
