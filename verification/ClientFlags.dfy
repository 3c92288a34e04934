/**
 The flags a client shares with its read loop and its keepalive loop, as an object: `disconnect`,
 `force_reconnect`, `set_ping_interval` and `ping_interval` (src/client.rs), and the two races the loops
 sleep in (src/runtime.rs). Every method is the engine steps that make it up, taken without interruption.
 */
module ClientFlags {
  import opened Prelude
  import opened Engine
  import opened Keepalive
  import opened Signals
  import Backoff
  import Pings
  import Shutdown

  // ------------------------------------------------------------------ whole calls as engine steps

  ghost function AfterDisconnect(sh: Shared): Shared {
    if sh.closed then AfterClient(sh, SetClosedAgain)
    else AfterClient(AfterClient(AfterClient(sh, SetClosed), DisconnectWake), DisconnectChanged)
  }

  ghost function AfterForce(sh: Shared): Shared {
    var checked := AfterClient(sh, ForcerCheck);
    if sh.closed then checked else AfterClient(checked, ForcerNotify)
  }

  ghost function AfterSetInterval(sh: Shared, interval: Option<Backoff.Duration>): Shared {
    AfterClient(AfterClient(sh, SetterStore(interval)), SetterNotify)
  }

  // ------------------------------------------------------------------ the read loop's race

  /** What `recv` yields: an event, or the end of the stream. */
  type Received = Option<Event>

  ghost function Go(cfg: Config, now: nat, sh: Shared, r: Reader, l: ReaderLabel): Reader
    requires ReaderGuard(r.pc, l, now)
  {
    r.(pc := NextPc(cfg, now, sh, r, l, true))
  }

  /** The read loop's steps in one wake-up of its race, after the notification that may have landed. */
  ghost function RecvTurn(cfg: Config, now: nat, sh: Shared, r: Reader, turn: CancelTurn<Received>): (Shared, Reader) {
    if !r.pc.PollRecv? && !r.pc.Parked? then (sh, r)
    else
      var polling := if r.pc.Parked? then Go(cfg, now, sh, r, Unpark) else r;
      var seen := if turn.notified then NextShared(sh, Keep(NotifyForce)) else sh;
      if turn.ready.Some? then
        (seen, Go(cfg, now, seen, polling, if turn.ready.value.Some? then RecvEvent(turn.ready.value.value) else RecvEnd))
      else
        (NextShared(seen, Read(ReadWake)), Go(cfg, now, seen, Go(cfg, now, seen, polling, RecvPending), ReadWake))
  }

  ghost function RecvTurns(cfg: Config, now: nat, sh: Shared, r: Reader, turns: seq<CancelTurn<Received>>): (Shared, Reader) {
    if turns == [] then (sh, r)
    else
      var n := |turns| - 1;
      var before := RecvTurns(cfg, now, sh, r, turns[..n]);
      RecvTurn(cfg, now, before.0, before.1, turns[n])
  }

  lemma {:induction false} UndecidedRecv(cfg: Config, now: nat, sh: Shared, r: Reader, turns: seq<CancelTurn<Received>>)
    requires r.pc.PollRecv? && Undecided(sh.wake, turns, |turns|)
    ensures RecvTurns(cfg, now, sh, r, turns) == (sh, if turns == [] then r else r.(pc := Parked))
  {
    if turns != [] {
      var n := |turns| - 1;
      assert Undecided(sh.wake, turns[..n], n);
      UndecidedRecv(cfg, now, sh, r, turns[..n]);
      assert sh.(wake := false) == sh;
    }
  }

  /** Where the outcome of the race leaves the read loop. */
  ghost function AfterRace(r: Reader, outcome: Cancellable<Received>, used: nat): ReaderPc {
    match outcome
    case Done(received) => if received.Some? then Dispatch(received.value) else AfterRead(Eof)
    case Cancelled => Woken
    case StillRacing => if used == 0 then r.pc else Parked
  }

  // ------------------------------------------------------------------ the keepalive loop's race

  /** The keepalive loop's steps in one wake-up of its race at time `at`, after the notification that may
      have landed. */
  ghost function SleepTurn(cfg: Config, at: nat, sh: Shared, k: Keeper, pings: Pings.State, notified: bool)
    : (Shared, Keeper)
  {
    if !k.pc.PollChanged? && !k.pc.ParkedOn? then (sh, k)
    else
      var polling := if k.pc.ParkedOn? then AfterKeep(cfg, at, sh, k, pings, UnparkOn) else k;
      var seen := if notified then sh.(changed := true) else sh;
      var read := AfterKeep(cfg, at, seen, polling, pings, ReadChanged);
      (NextShared(seen, Keep(ReadChanged)),
       if seen.changed then read else AfterKeep(cfg, at, seen, read, pings, ReadTimer(at >= read.pc.deadline)))
  }

  ghost function SleepTurns(cfg: Config, clock: seq<nat>, sh: Shared, k: Keeper, pings: Pings.State,
                            turns: seq<TimeoutTurn<()>>): (Shared, Keeper)
    requires |turns| <= |clock|
  {
    if turns == [] then (sh, k)
    else
      var n := |turns| - 1;
      var before := SleepTurns(cfg, clock, sh, k, pings, turns[..n]);
      SleepTurn(cfg, clock[n], before.0, before.1, pings, turns[n].sent.Some?)
  }

  /** The timer of the race is ready from the deadline on. */
  ghost predicate TimerIsExact(clock: seq<nat>, deadline: nat, turns: seq<TimeoutTurn<()>>) {
    |turns| <= |clock| && forall i :: 0 <= i < |turns| ==> (turns[i].elapsed <==> clock[i] >= deadline)
  }

  lemma {:induction false} QuietSleep(cfg: Config, clock: seq<nat>, sh: Shared, k: Keeper, pings: Pings.State,
                                      turns: seq<TimeoutTurn<()>>)
    requires k.pc.PollChanged? && (turns != [] ==> !sh.changed) && TimerIsExact(clock, k.pc.deadline, turns)
    requires forall i :: 0 <= i < |turns| ==> turns[i].sent.None? && !turns[i].elapsed
    ensures SleepTurns(cfg, clock, sh, k, pings, turns)
         == (sh, if turns == [] then k else k.(pc := ParkedOn(k.pc.millis, k.pc.deadline)))
  {
    if turns != [] {
      var n := |turns| - 1;
      QuietSleep(cfg, clock, sh, k, pings, turns[..n]);
      assert sh.(changed := false) == sh;
    }
  }

  /** Where the outcome of its race leaves the keepalive loop. */
  ghost function AfterSleep(k: Keeper, outcome: Timed<()>, used: nat): Keeper
    requires k.pc.PollChanged?
  {
    match outcome
    case InTime(_) => Keeper(Head, 0, k.log + [Reconfigured])
    case Elapsed => k.(pc := CheckBeforePing(k.pc.millis))
    case StillWaiting => if used == 0 then k else k.(pc := ParkedOn(k.pc.millis, k.pc.deadline))
  }

  // ------------------------------------------------------------------ the object

  class Flags {
    var closed: bool
    var millis: U32
    const wake: Signal<()>
    const changed: Signal<()>
    ghost var closer: Closer
    ghost var forcers: nat
    ghost var setters: nat

    ghost function View(): Shared
      reads this, wake, changed
    {
      Shared(closed, closer, wake.slot.Some?, forcers, changed.slot.Some?, millis, setters)
    }

    /** A new client starts where every run of the engine starts. */
    constructor (keepalive: Behavior)
      ensures fresh(wake) && fresh(changed) && wake != changed
      ensures forall s: State :: Init(s) && s.cfg.keepalive == keepalive ==> s.shared == View()
    {
      var initial := InitialInterval(keepalive);
      closed := false;
      millis := if initial.None? then 0 else Min(initial.value / MILLI, U32_MAX);
      wake := new Signal();
      changed := new Signal();
      closer, forcers, setters := NotCalled, 0, 0;
    }

    /** `disconnect` up to closing the sink, which it goes on to do exactly if this call was the first.
        From there the read loop and the keepalive loop are bound to stop. */
    method Disconnect() returns (first: bool)
      requires wake != changed
      modifies this, wake, changed
      ensures View() == AfterDisconnect(old(View()))
      ensures first <==> !old(closed)
      ensures first ==> Shutdown.WakeIssued(View()) && Shutdown.ChangeIssued(View()) && View().wake && View().changed
    {
      first := !closed;
      closed := true;
      if first {
        closer := ClosingSink;
        wake.Set(());
        changed.Set(());
      }
    }

    method ForceReconnect()
      requires wake != changed
      modifies wake
      ensures View() == AfterForce(old(View()))
      ensures !closed ==> View().wake
    {
      if !closed {
        wake.Set(());
      }
    }

    /** A zero duration is filtered out first, then the interval is stored, then announced. */
    method SetPingInterval(interval: Option<Backoff.Duration>)
      requires wake != changed
      modifies this`millis, changed
      ensures View() == AfterSetInterval(old(View()), interval)
    {
      var filtered := if interval.Some? && interval.value == 0 then None else interval;
      millis := match filtered
        case None => 0
        case Some(d) => if d / MILLI <= U32_MAX then d / MILLI else U32_MAX;
      changed.Set(());
    }

    /** What `ping_interval` reports is what the keepalive loop acts on: off exactly if it would wait for
        a change only, else the interval it would wait out. */
    method PingInterval(ghost cfg: Config, ghost now: nat, ghost k: Keeper, ghost pings: Pings.State)
      returns (interval: Option<Backoff.Duration>)
      requires k.pc.Load?
      ensures var pc := AfterKeep(cfg, now, View(), k, pings, LoadInterval).pc;
              if interval.None? then pc.PollOff?
              else pc.PollChanged? && interval.value == pc.millis * MILLI && pc.deadline == now + interval.value
    {
      interval := if millis == 0 then None else Some(millis * MILLI);
    }

    /** The read loop's sleep, `with_cancel` over `recv`: it leaves the flags and the read loop where the
        read loop's own polling steps of the engine leave them. */
    method RaceRecv(turns: seq<CancelTurn<Received>>, ghost cfg: Config, ghost now: nat, ghost r: Reader)
      returns (outcome: Cancellable<Received>, used: nat)
      requires wake != changed && r.pc.PollRecv?
      modifies wake
      ensures used <= |turns| && (outcome.StillRacing? ==> used == |turns|)
      ensures RecvTurns(cfg, now, old(View()), r, turns[..used]) == (View(), r.(pc := AfterRace(r, outcome, used)))
    {
      ghost var before := View();
      outcome, used := WithCancel(wake, turns);
      ghost var decided := if outcome.StillRacing? then used else used - 1;
      assert Undecided(before.wake, turns[..decided], decided);
      UndecidedRecv(cfg, now, before, r, turns[..decided]);
      if !outcome.StillRacing? {
        assert turns[..used][..decided] == turns[..decided];
      }
    }

    /** The keepalive loop's sleep, `with_timeout` over the change signal, woken at the times of `clock`. */
    method RaceInterval(turns: seq<TimeoutTurn<()>>, ghost clock: seq<nat>,
                        ghost cfg: Config, ghost k: Keeper, ghost pings: Pings.State)
      returns (outcome: Timed<()>, used: nat)
      requires wake != changed && k.pc.PollChanged? && TimerIsExact(clock, k.pc.deadline, turns)
      modifies changed
      ensures used <= |turns| && (outcome.StillWaiting? ==> used == |turns|)
      ensures SleepTurns(cfg, clock, old(View()), k, pings, turns[..used]) == (View(), AfterSleep(k, outcome, used))
    {
      ghost var before := View();
      outcome, used := WaitWithTimeout(changed, turns);
      ghost var decided := if outcome.StillWaiting? then used else used - 1;
      QuietSleep(cfg, clock, before, k, pings, turns[..decided]);
      if !outcome.StillWaiting? {
        assert turns[..used][..decided] == turns[..decided];
      }
    }
  }
}
