/**
 What a forced redial is: the keepalive loop notifies the read loop once for every force it logs, and a
 notified read loop that can redial reaches its next dial, or its exit, in a bounded number of steps.
 */
module Force {
  import opened Prelude
  import opened Engine
  import opened Keepalive
  import Handlers
  import Pings
  import Shutdown
  import Subscribers

  // ------------------------------------------------------------------ every logged force is notified

  function ForcesLogged(log: seq<Entry>): nat {
    if log == [] then 0 else ForcesLogged(log[..|log| - 1]) + One(log[|log| - 1].ForcedRedial?)
  }

  function ForcesNotified(labels: seq<Label>, n: nat): nat
    requires n <= |labels|
  {
    if n == 0 then 0 else ForcesNotified(labels, n - 1) + One(labels[n - 1] == Keep(NotifyForce))
  }

  /** The keepalive loop has decided to force a redial and has not notified yet. */
  predicate Forcing(pc: KeeperPc) {
    pc.ForceCheck? || pc.ForceNotify?
  }

  lemma LoggedSnoc(log: seq<Entry>, e: Entry)
    ensures ForcesLogged(log + [e]) == ForcesLogged(log) + One(e.ForcedRedial?)
  {
    assert (log + [e])[..|log|] == log;
  }

  lemma LoggedAfterMiss(cfg: Config, k: Keeper, failed: Entry)
    requires failed.Failed?
    ensures var t := AfterMiss(cfg, k, failed);
            ForcesLogged(t.log) == ForcesLogged(k.log) + One(Forcing(t.pc))
  {
    LoggedSnoc(k.log, failed);
    LoggedSnoc(k.log + [failed], ForcedRedial);
  }

  lemma PingDoneBalancesForces(cfg: Config, now: nat, sh: Shared, k: Keeper, pings: Pings.State)
    requires KeeperGuard(k.pc, PingDone, now, pings)
    ensures var t := AfterKeep(cfg, now, sh, k, pings, PingDone);
            ForcesLogged(t.log) == ForcesLogged(k.log) + One(Forcing(t.pc))
  {
    var outcome := pings.pings[k.pc.p].pc.outcome;
    if outcome.Answered? {
      LoggedSnoc(k.log, Answered);
    } else {
      LoggedAfterMiss(cfg, k, FailedEntry(cfg, k.pc.millis, outcome));
    }
  }

  lemma KeepBalancesForces(cfg: Config, now: nat, sh: Shared, k: Keeper, pings: Pings.State, l: KeeperLabel)
    requires KeeperGuard(k.pc, l, now, pings) && !sh.closed
    ensures var t := AfterKeep(cfg, now, sh, k, pings, l);
            One(l.NotifyForce?) + One(Forcing(t.pc)) + ForcesLogged(k.log) == One(Forcing(k.pc)) + ForcesLogged(t.log)
  {
    match l
    case ReadChangedOff => LoggedSnoc(k.log, Reconfigured);
    case ReadChanged => LoggedSnoc(k.log, Reconfigured);
    case RecheckInterval(_) => LoggedSnoc(k.log, Skipped(k.pc.millis * MILLI));
    case PingDone => PingDoneBalancesForces(cfg, now, sh, k, pings);
    case _ =>
  }

  lemma StepBalancesForces(states: seq<State>, labels: seq<Label>, i: nat)
    requires IsSegment(states, labels) && i < |labels| && !states[i + 1].shared.closed
    ensures !states[i].shared.closed
    ensures var k, k' := states[i].keeper, states[i + 1].keeper;
            One(labels[i] == Keep(NotifyForce)) + One(Forcing(k'.pc)) + ForcesLogged(k.log)
            == One(Forcing(k.pc)) + ForcesLogged(k'.log)
  {
    var s, l := states[i], labels[i];
    FollowsAt(states, labels, i);
    if l.Keep? {
      KeepBalancesForces(s.cfg, s.now, s.shared, s.keeper, s.pings, l.k);
    }
  }

  /** In every run of a client that is still open, the keepalive loop has notified the read loop exactly
      once for each redial it logged as forced, the one it is in the middle of excepted. */
  lemma {:induction false} EveryForceIsNotified(states: seq<State>, labels: seq<Label>, n: nat)
    requires IsRun(states, labels) && n <= |labels| && !states[n].shared.closed
    ensures ForcesNotified(labels, n) + One(Forcing(states[n].keeper.pc)) == ForcesLogged(states[n].keeper.log)
  {
    if n > 0 {
      StepBalancesForces(states, labels, n - 1);
      EveryForceIsNotified(states, labels, n - 1);
    }
  }

  // ------------------------------------------------------------------ every notified force leads to a dial

  lemma NotifyLatches(sh: Shared, l: Label)
    requires (l.Client? ==> ClientGuard(sh, l.a)) && NotifiesWake(l)
    ensures NextShared(sh, l).wake
  {
  }

  /** The read loop has left the connection, or taken a wake and is about to, and has no dial behind it. */
  predicate Committed(pc: ReaderPc) {
    || pc.Woken? || pc.AfterRead? || pc.ClearAndExit? || pc.Courtesy? || pc.ClearPongs? || pc.StartBackoff?
    || pc.PollTimer? || pc.PollBackoffWake? || pc.ParkedInBackoff? || pc.WokenInBackoff? || pc.CheckClosed?
    || pc.StartDial? || pc.Exited?
  }

  /** A force is latched for the read loop, or the read loop is acting on it. */
  predicate Alive(sh: Shared, pc: ReaderPc) {
    sh.wake || Committed(pc)
  }

  /** How many of its own steps the read loop is away from a dial or its exit once a force is alive, not
      counting the signalling of individual subscribers. */
  function Rank(pc: ReaderPc, call: Handlers.Reader, note: Handlers.Reader, phase: Subscribers.Phase): nat {
    match pc
    case Exited(_) => 0
    case StartDial => 1
    case ClearAndExit => 1
    case CheckClosed => 2
    case WokenInBackoff => 3
    case PollBackoffWake(_) => 4
    case PollTimer(_) => 5
    case ParkedInBackoff(_) => 6
    case StartBackoff => 6
    case ClearPongs => 7
    case Courtesy => 8
    case AfterRead(_) => 9
    case Woken => 10
    case PollWake => 11
    case PollRecv => 12
    case Parked => 13
    case InCall => 7 + Shutdown.HandlerRank(call)
    case InSend => 7 + Shutdown.HandlerRank(note)
    case NotifySubscribers => 7 + Shutdown.PhaseRank(phase)
    case SwapSink => 17
    case Dispatch(_) => 18
    case Dialing => 18
  }

  const RANK_MAX: nat := 18
  /** A newly received event takes the read loop from polling to dispatching. */
  const RANK_PER_EVENT: nat := 6
  /** A backoff poll that finds neither the timer nor a wake parks the read loop again. */
  const RANK_PER_EMPTY_POLL: nat := 3

  function RankOf(s: State): nat {
    Rank(s.reader.pc, s.calls.reader, s.notes.reader, s.subs.phase)
  }

  lemma RankAtMostMax(s: State)
    ensures RankOf(s) <= RANK_MAX
  {
  }

  predicate IsDial(l: Label) {
    l.Read? && l.r.BeginDial?
  }

  predicate IsEmptyPoll(sh: Shared, l: Label) {
    l == Read(ReadBackoffWake) && !sh.wake
  }

  lemma ReadKeepsAlive(cfg: Config, now: nat, sh: Shared, r: Reader, l: ReaderLabel, settled: bool)
    requires ReaderGuard(r.pc, l, now) && cfg.reconnects && !l.BeginDial? && Alive(sh, r.pc)
    ensures Alive(NextShared(sh, Read(l)), NextPc(cfg, now, sh, r, l, settled))
  {
  }

  /** Nothing but the dial itself makes a force go away. */
  lemma StepKeepsAlive(s: State, l: Label)
    requires Enabled(s, l) && s.cfg.reconnects && !IsDial(l) && Alive(s.shared, s.reader.pc)
    ensures Alive(Step(s, l).shared, Step(s, l).reader.pc)
  {
    if l.Read? {
      ReadKeepsAlive(s.cfg, s.now, s.shared, s.reader, l.r, Settled(s, l));
    }
  }

  lemma PcRankDecreases(cfg: Config, now: nat, sh: Shared, r: Reader, l: ReaderLabel, settled: bool,
                        call: Handlers.Reader, note: Handlers.Reader, phase: Subscribers.Phase,
                        call': Handlers.Reader, note': Handlers.Reader, phase': Subscribers.Phase)
    requires ReaderGuard(r.pc, l, now) && cfg.reconnects && Alive(sh, r.pc) && !l.RecvEvent? && !l.BeginDial?
    requires l.CallStep? && !settled ==> Shutdown.HandlerRank(call') < Shutdown.HandlerRank(call)
    requires l.SendStep? && !settled ==> Shutdown.HandlerRank(note') < Shutdown.HandlerRank(note)
    requires l.NotifyStep? && !settled ==> Shutdown.PhaseRank(phase') < Shutdown.PhaseRank(phase)
    ensures 1 + Rank(NextPc(cfg, now, sh, r, l, settled), call', note', phase')
            <= Rank(r.pc, call, note, phase) + RANK_PER_EMPTY_POLL * One(IsEmptyPoll(sh, Read(l)))
  {
  }

  lemma CountedStepNears(s: State, l: Label)
    requires Enabled(s, l) && s.cfg.reconnects && Alive(s.shared, s.reader.pc)
    requires Shutdown.Counts(l) && !IsDial(l)
    ensures 1 + RankOf(Step(s, l)) <= RankOf(s) + RANK_PER_EMPTY_POLL * One(IsEmptyPoll(s.shared, l))
  {
    if CallLabel(s.reader.pc, l).Some? {
      Shutdown.HandlerReaderStep(s.calls, CallLabel(s.reader.pc, l).value);
    }
    if NoteLabel(s.reader.pc, l).Some? {
      Shutdown.HandlerReaderStep(s.notes, NoteLabel(s.reader.pc, l).value);
    }
    if SubLabel(l).Some? {
      Shutdown.SubscriberPhaseStep(s.subs, SubLabel(l).value);
    }
    PcRankDecreases(s.cfg, s.now, s.shared, s.reader, l.r, Settled(s, l),
                    s.calls.reader, s.notes.reader, s.subs.phase,
                    NewCalls(s, l).reader, NewNotes(s, l).reader, NewSubs(s, l).phase);
  }

  lemma OtherStepKeepsRank(s: State, l: Label)
    requires Enabled(s, l) && !Shutdown.Counts(l) && Shutdown.Coupled(s)
    ensures RankOf(Step(s, l)) <= RankOf(s) + RANK_PER_EVENT * One(Shutdown.IsEvent(l))
  {
    Shutdown.HandlersAfter(s, l);
    Shutdown.PhaseAfter(s, l);
    if Shutdown.IsSignal(l) {
      Shutdown.SubscriberPhaseStep(s.subs, l.r.n);
      Shutdown.InsideAfter(s.cfg, s.now, s.shared, s.reader, l.r, Settled(s, l));
    }
  }

  function StepAllowance(sh: Shared, l: Label): nat {
    RANK_PER_EVENT * One(Shutdown.IsEvent(l)) + RANK_PER_EMPTY_POLL * One(IsEmptyPoll(sh, l))
  }

  /** What the steps of `labels[lo..hi]` may add to the distance, less the counted steps among them. */
  function Allowance(states: seq<State>, labels: seq<Label>, lo: nat, hi: nat): nat
    requires lo <= hi <= |labels| < |states|
  {
    if lo == hi then 0
    else Allowance(states, labels, lo, hi - 1) + StepAllowance(states[hi - 1].shared, labels[hi - 1])
  }

  function Counted(labels: seq<Label>, lo: nat, hi: nat): nat
    requires lo <= hi <= |labels|
  {
    if lo == hi then 0 else Counted(labels, lo, hi - 1) + One(Shutdown.Counts(labels[hi - 1]))
  }

  function Events(labels: seq<Label>, lo: nat, hi: nat): nat
    requires lo <= hi <= |labels|
  {
    if lo == hi then 0 else Events(labels, lo, hi - 1) + One(Shutdown.IsEvent(labels[hi - 1]))
  }

  function EmptyPolls(states: seq<State>, labels: seq<Label>, lo: nat, hi: nat): nat
    requires lo <= hi <= |labels| < |states|
  {
    if lo == hi then 0
    else EmptyPolls(states, labels, lo, hi - 1) + One(IsEmptyPoll(states[hi - 1].shared, labels[hi - 1]))
  }

  lemma {:induction false} AllowanceSplit(states: seq<State>, labels: seq<Label>, lo: nat, hi: nat)
    requires lo <= hi <= |labels| < |states|
    ensures Allowance(states, labels, lo, hi)
         == RANK_PER_EVENT * Events(labels, lo, hi) + RANK_PER_EMPTY_POLL * EmptyPolls(states, labels, lo, hi)
    decreases hi
  {
    if lo < hi {
      AllowanceSplit(states, labels, lo, hi - 1);
    }
  }

  /** A stretch of any interleaving in which no dial begins. */
  ghost predicate NoDial(labels: seq<Label>, lo: nat, hi: nat)
    requires lo <= hi <= |labels|
  {
    forall i :: lo <= i < hi ==> !IsDial(labels[i])
  }

  lemma ForcefulMeans(s: State)
    requires Forceful(s)
    ensures s.reader.pc.Parked? ==> s.shared.wake
    ensures s.reader.pc.Exited? ==> s.shared.closed
  {
    if s.reader.pc.Exited? {
      var why := s.reader.pc.why;
      assert why.Disconnected? || why.NoReconnector?;
    }
  }

  /** A client that can redial, with a force alive. */
  ghost predicate Forceful(s: State) {
    Shutdown.Inv(s) && s.cfg.reconnects && Alive(s.shared, s.reader.pc)
  }

  /** A step brings the read loop nearer to its dial, allowances aside. */
  ghost predicate Nears(s: State, l: Label, t: State) {
    One(Shutdown.Counts(l)) + RankOf(t) <= RankOf(s) + StepAllowance(s.shared, l)
  }

  lemma StaysForceful(states: seq<State>, labels: seq<Label>, i: nat)
    requires IsSegment(states, labels) && i < |labels| && Forceful(states[i]) && !IsDial(labels[i])
    ensures Forceful(states[i + 1])
  {
    var s, l := states[i], labels[i];
    FollowsAt(states, labels, i);
    Shutdown.StepKeepsInv(s, l);
    StepKeepsAlive(s, l);
  }

  lemma ForcefulStepNears(s: State, l: Label, t: State)
    requires Follows(s, l, t) && Forceful(s) && !IsDial(l)
    ensures Nears(s, l, t)
  {
    if Shutdown.Counts(l) {
      CountedStepNears(s, l);
    } else {
      OtherStepKeepsRank(s, l);
    }
  }

  lemma {:induction false} ForceStaysAlive(states: seq<State>, labels: seq<Label>, lo: nat, hi: nat)
    requires IsSegment(states, labels) && lo <= hi <= |labels| && NoDial(labels, lo, hi) && Forceful(states[lo])
    ensures Forceful(states[hi])
    decreases hi
  {
    if lo < hi {
      ForceStaysAlive(states, labels, lo, hi - 1);
      StaysForceful(states, labels, hi - 1);
    }
  }

  lemma {:induction false} RankIsUsedUp(states: seq<State>, labels: seq<Label>, lo: nat, hi: nat)
    requires lo <= hi <= |labels| < |states|
    requires forall i {:trigger labels[i]} :: lo <= i < hi ==> Nears(states[i], labels[i], states[i + 1])
    ensures Counted(labels, lo, hi) + RankOf(states[hi]) <= RankOf(states[lo]) + Allowance(states, labels, lo, hi)
    decreases hi
  {
    if lo < hi {
      RankIsUsedUp(states, labels, lo, hi - 1);
      assert Nears(states[hi - 1], labels[hi - 1], states[hi]);
    }
  }

  lemma NearsAt(states: seq<State>, labels: seq<Label>, lo: nat, hi: nat, i: nat)
    requires IsSegment(states, labels) && lo <= i < hi <= |labels| && NoDial(labels, lo, hi) && Forceful(states[lo])
    ensures Nears(states[i], labels[i], states[i + 1])
  {
    ForceStaysAlive(states, labels, lo, i);
    FollowsAt(states, labels, i);
    ForcefulStepNears(states[i], labels[i], states[i + 1]);
  }

  /**
   The reader's half of a forced redial: from a state in which a force is alive, as long as no dial has
   begun, the force stays alive and the read loop's counted steps use up its distance to the dial.
   */
  lemma ForceRunsOut(states: seq<State>, labels: seq<Label>, lo: nat, hi: nat)
    requires IsSegment(states, labels) && lo <= hi <= |labels| && NoDial(labels, lo, hi) && Forceful(states[lo])
    ensures Forceful(states[hi])
    ensures Counted(labels, lo, hi) + RankOf(states[hi]) <= RankOf(states[lo]) + Allowance(states, labels, lo, hi)
  {
    forall i | lo <= i < hi
      ensures Nears(states[i], labels[i], states[i + 1])
    {
      NearsAt(states, labels, lo, hi, i);
    }
    ForceStaysAlive(states, labels, lo, hi);
    RankIsUsedUp(states, labels, lo, hi);
  }
}
