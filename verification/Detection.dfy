/**
 How long dead-peer detection takes, by the run's own clock and timers: every interval that ends is one
 ping round, every pong deadline that passes is one timed-out ping, and the time that passes is exactly
 the waits the log shows plus the time nobody was waiting for.
 */
module Detection {
  import opened Prelude
  import opened Engine
  import opened Keepalive
  import opened DeadPeer
  import Pings

  // ------------------------------------------------------------------ every elapsed interval is one round

  predicate IsRound(e: Entry) {
    e.Answered? || e.Failed? || e.Skipped?
  }

  function Rounds(log: seq<Entry>): nat {
    if log == [] then 0 else Rounds(log[..|log| - 1]) + One(IsRound(log[|log| - 1]))
  }

  predicate IsFired(l: Label) {
    l == Keep(ReadTimer(true))
  }

  /** How many intervals ended. */
  function IntervalsEnded(labels: seq<Label>, n: nat): nat
    requires n <= |labels|
  {
    if n == 0 then 0 else IntervalsEnded(labels, n - 1) + One(IsFired(labels[n - 1]))
  }

  /** The interval of the round in progress is over. */
  predicate PastInterval(pc: KeeperPc) {
    pc.CheckBeforePing? || pc.Recheck? || pc.Pinging?
  }

  lemma RoundsSnoc(log: seq<Entry>, e: Entry)
    ensures Rounds(log + [e]) == Rounds(log) + One(IsRound(e))
  {
    assert (log + [e])[..|log|] == log;
  }

  lemma MissIsOneRound(cfg: Config, k: Keeper, failed: Entry)
    requires failed.Failed?
    ensures var t := AfterMiss(cfg, k, failed); Rounds(t.log) == Rounds(k.log) + 1 && !PastInterval(t.pc)
  {
    RoundsSnoc(k.log, failed);
    RoundsSnoc(k.log + [failed], ForcedRedial);
  }

  lemma KeepBalancesRounds(cfg: Config, now: nat, sh: Shared, k: Keeper, pings: Pings.State, l: KeeperLabel)
    requires KeeperGuard(k.pc, l, now, pings) && !sh.closed
    ensures var t := AfterKeep(cfg, now, sh, k, pings, l);
            Rounds(t.log) + One(PastInterval(t.pc)) == Rounds(k.log) + One(PastInterval(k.pc)) + One(l == ReadTimer(true))
  {
    match l
    case ReadChangedOff => RoundsSnoc(k.log, Reconfigured);
    case ReadChanged => RoundsSnoc(k.log, Reconfigured);
    case RecheckInterval(_) => RoundsSnoc(k.log, Skipped(k.pc.millis * MILLI));
    case PingDone =>
      RoundsSnoc(k.log, Answered);
      MissIsOneRound(cfg, k, FailedEntry(cfg, k.pc.millis, pings.pings[k.pc.p].pc.outcome));
    case _ =>
  }

  lemma StepBalancesRounds(states: seq<State>, labels: seq<Label>, i: nat)
    requires IsSegment(states, labels) && i < |labels| && !states[i].shared.closed
    ensures var k, k' := states[i].keeper, states[i + 1].keeper;
            Rounds(k'.log) + One(PastInterval(k'.pc)) == Rounds(k.log) + One(PastInterval(k.pc)) + One(IsFired(labels[i]))
  {
    var s, l := states[i], labels[i];
    FollowsAt(states, labels, i);
    if l.Keep? {
      KeepBalancesRounds(s.cfg, s.now, s.shared, s.keeper, s.pings, l.k);
    }
  }

  lemma OpenBefore(states: seq<State>, labels: seq<Label>, i: nat)
    requires IsSegment(states, labels) && i < |labels| && !states[i + 1].shared.closed
    ensures !states[i].shared.closed
  {
    FollowsAt(states, labels, i);
  }

  /** In every run of an open client, each interval that ended is one logged round, answered, failed or
      skipped, the round in progress excepted. */
  lemma {:induction false} EveryIntervalIsARound(states: seq<State>, labels: seq<Label>, n: nat)
    requires IsRun(states, labels) && n <= |labels| && !states[n].shared.closed
    ensures IntervalsEnded(labels, n) == Rounds(states[n].keeper.log) + One(PastInterval(states[n].keeper.pc))
  {
    if n > 0 {
      OpenBefore(states, labels, n - 1);
      EveryIntervalIsARound(states, labels, n - 1);
      StepBalancesRounds(states, labels, n - 1);
    }
  }

  // ------------------------------------------------------------------ every passed deadline is one timed-out ping

  function TimeOuts(log: seq<Entry>): nat {
    if log == [] then 0 else TimeOuts(log[..|log| - 1]) + One(IsTimeOut(log[|log| - 1]))
  }

  predicate IsTimeOut(e: Entry) {
    e.Failed? && e.pong.Some?
  }

  /** The deadline of the ping the loop awaits passes. */
  predicate IsDeadline(pc: KeeperPc, l: Label) {
    l.PingStep? && pc.Pinging? && l.ping == Pings.PollDelay(pc.p, true)
  }

  function DeadlinesPassed(states: seq<State>, labels: seq<Label>, n: nat): nat
    requires n <= |labels| < |states|
  {
    if n == 0 then 0 else DeadlinesPassed(states, labels, n - 1) + One(IsDeadline(states[n - 1].keeper.pc, labels[n - 1]))
  }

  /** The awaited ping has run into its deadline. */
  predicate RanLate(pc: KeeperPc, pings: Pings.State) {
    pc.Pinging? && pc.p in pings.pings
    && (pings.pings[pc.p].pc.ForgetLate? || pings.pings[pc.p].pc == Pings.Returned(Pings.TimedOut))
  }

  lemma TimeOutsSnoc(log: seq<Entry>, e: Entry)
    ensures TimeOuts(log + [e]) == TimeOuts(log) + One(IsTimeOut(e))
  {
    assert (log + [e])[..|log|] == log;
  }

  lemma TimeOutsAfterMiss(cfg: Config, k: Keeper, failed: Entry)
    ensures TimeOuts(AfterMiss(cfg, k, failed).log) == TimeOuts(k.log) + One(IsTimeOut(failed))
  {
    TimeOutsSnoc(k.log, failed);
    TimeOutsSnoc(k.log + [failed], ForcedRedial);
  }

  lemma KeepBalancesTimeOuts(cfg: Config, now: nat, sh: Shared, k: Keeper, pings: Pings.State, l: KeeperLabel)
    requires KeeperGuard(k.pc, l, now, pings)
    ensures TimeOuts(AfterKeep(cfg, now, sh, k, pings, l).log) == TimeOuts(k.log) + One(l.PingDone? && RanLate(k.pc, pings))
  {
    match l
    case ReadChangedOff => TimeOutsSnoc(k.log, Reconfigured);
    case ReadChanged => TimeOutsSnoc(k.log, Reconfigured);
    case RecheckInterval(_) => TimeOutsSnoc(k.log, Skipped(k.pc.millis * MILLI));
    case PingDone =>
      TimeOutsSnoc(k.log, Answered);
      TimeOutsAfterMiss(cfg, k, FailedEntry(cfg, k.pc.millis, pings.pings[k.pc.p].pc.outcome));
    case _ =>
  }

  lemma PingRunsLate(s: Pings.State, l: Pings.Label, p: Pings.PingId)
    requires Pings.Enabled(s, l) && p in s.pings && l != Pings.Drop(p)
    ensures p in Pings.Step(s, l).pings
    ensures var late, late' := s.pings[p].pc, Pings.Step(s, l).pings[p].pc;
            late'.ForgetLate? || late' == Pings.Returned(Pings.TimedOut) <==>
            late.ForgetLate? || late == Pings.Returned(Pings.TimedOut) || l == Pings.PollDelay(p, true)
  {
  }

  lemma KeepStopsAwaiting(cfg: Config, now: nat, sh: Shared, k: Keeper, pings: Pings.State, l: KeeperLabel)
    requires KeeperGuard(k.pc, l, now, pings)
    ensures var pc := AfterKeep(cfg, now, sh, k, pings, l).pc;
            && (pc.Pinging? ==> l.RecheckInterval? && sh.millis != 0 && pc.p == l.p)
            && (k.pc.Pinging? ==> l.PingDone?)
  {
  }

  lemma StepBalancesTimeOuts(states: seq<State>, labels: seq<Label>, i: nat)
    requires IsSegment(states, labels) && i < |labels| && PingingInv(states[i].now, states[i].keeper, states[i].pings)
    ensures var s, t := states[i], states[i + 1];
            TimeOuts(t.keeper.log) + One(RanLate(t.keeper.pc, t.pings))
            == TimeOuts(s.keeper.log) + One(RanLate(s.keeper.pc, s.pings)) + One(IsDeadline(s.keeper.pc, labels[i]))
  {
    var s, l := states[i], labels[i];
    FollowsAt(states, labels, i);
    var p := PingLabel(s.reader.pc, s.shared, l);
    if l.Keep? {
      KeepBalancesTimeOuts(s.cfg, s.now, s.shared, s.keeper, s.pings, l.k);
      KeepStopsAwaiting(s.cfg, s.now, s.shared, s.keeper, s.pings, l.k);
    } else if p.Some? && s.keeper.pc.Pinging? {
      PingRunsLate(s.pings, p.value, s.keeper.pc.p);
    }
  }

  /** In every run, each deadline of an awaited ping that passed is one ping logged as timed out, the one
      being forgotten excepted. */
  lemma {:induction false} EveryDeadlineIsATimeOut(states: seq<State>, labels: seq<Label>, n: nat)
    requires IsRun(states, labels) && n <= |labels|
    requires forall i :: 0 <= i <= n ==> PingingInv(states[i].now, states[i].keeper, states[i].pings)
    ensures DeadlinesPassed(states, labels, n)
         == TimeOuts(states[n].keeper.log) + One(RanLate(states[n].keeper.pc, states[n].pings))
  {
    if n > 0 {
      EveryDeadlineIsATimeOut(states, labels, n - 1);
      StepBalancesTimeOuts(states, labels, n - 1);
    }
  }

  // ------------------------------------------------------------------ where the time goes

  /** The deadline the loop, or the ping it awaits, is waiting for. */
  function Timer(pc: KeeperPc): Option<nat> {
    match pc
    case PollChanged(_, deadline) => Some(deadline)
    case PollInterval(_, deadline) => Some(deadline)
    case ParkedOn(_, deadline) => Some(deadline)
    case Pinging(_, _, pong) => pong
    case _ => None
  }

  function Left(deadline: nat, now: nat): nat {
    if now < deadline then deadline - now else 0
  }

  /** The part of a passage of time in which no timer of the loop was running: it, or the ping it awaits,
      was waiting for something else, or its deadline had passed already. */
  function Late(pc: KeeperPc, now: nat, l: Label): nat {
    if !l.Tick? then 0
    else if Timer(pc).None? then l.elapsed
    else l.elapsed - (Left(Timer(pc).value, now) - Left(Timer(pc).value, now + l.elapsed))
  }

  function LateTime(states: seq<State>, labels: seq<Label>, lo: nat, hi: nat): nat
    requires lo <= hi <= |labels| < |states|
  {
    if lo == hi then 0
    else LateTime(states, labels, lo, hi - 1) + Late(states[hi - 1].keeper.pc, states[hi - 1].now, labels[hi - 1])
  }

  /** What the round in progress has waited so far. */
  function WaitedInRound(cfg: Config, pc: KeeperPc, now: nat): int {
    match pc
    case PollChanged(millis, deadline) => millis * MILLI - Left(deadline, now)
    case PollInterval(millis, deadline) => millis * MILLI - Left(deadline, now)
    case ParkedOn(millis, deadline) => millis * MILLI - Left(deadline, now)
    case CheckBeforePing(millis) => millis * MILLI
    case Recheck(millis) => millis * MILLI
    case Pinging(_, millis, pong) => millis * MILLI + if pong.None? then 0 else PingTimeout(cfg) - Left(pong.value, now)
    case _ => 0
  }

  function WaitedSoFar(cfg: Config, now: nat, k: Keeper): int {
    Waited(k.log) + WaitedInRound(cfg, k.pc, now)
  }

  /** No answer, reconfiguration or force was logged after `log`. */
  predicate NoResetSince(log: seq<Entry>, log': seq<Entry>) {
    log <= log' && StretchStart(log') <= |log|
  }

  lemma StretchSnoc(log: seq<Entry>, e: Entry)
    ensures StretchStart(log + [e]) == if e.Failed? || e.Skipped? then StretchStart(log) else |log| + 1
  {
    assert (log + [e])[..|log|] == log;
  }

  lemma {:induction false} StretchMonotone(log: seq<Entry>, log': seq<Entry>)
    requires log <= log'
    ensures StretchStart(log) <= StretchStart(log')
    decreases |log'|
  {
    if log != log' {
      StretchMonotone(log, log'[..|log'| - 1]);
    }
  }

  lemma MissWaits(cfg: Config, k: Keeper, failed: Entry)
    requires failed.Failed? && NoResetSince(k.log, AfterMiss(cfg, k, failed).log)
    ensures AfterMiss(cfg, k, failed) == Keeper(Head, SaturatingInc(k.missed), k.log + [failed])
    ensures Waited(k.log + [failed]) == Waited(k.log) + failed.interval + PongWait(failed.pong)
  {
    Snoc(k.log, failed);
    StretchSnoc(k.log + [failed], ForcedRedial);
  }

  lemma PingDoneWaits(cfg: Config, now: nat, sh: Shared, k: Keeper, pings: Pings.State)
    requires KeeperGuard(k.pc, PingDone, now, pings) && PingingInv(now, k, pings)
    requires NoResetSince(k.log, AfterKeep(cfg, now, sh, k, pings, PingDone).log)
    ensures WaitedSoFar(cfg, now, AfterKeep(cfg, now, sh, k, pings, PingDone)) == WaitedSoFar(cfg, now, k)
  {
    var outcome := pings.pings[k.pc.p].pc.outcome;
    StretchSnoc(k.log, Answered);
    MissWaits(cfg, k, FailedEntry(cfg, k.pc.millis, outcome));
  }

  lemma KeepWaits(cfg: Config, now: nat, sh: Shared, k: Keeper, pings: Pings.State, l: KeeperLabel)
    requires KeeperGuard(k.pc, l, now, pings) && PingingInv(now, k, pings) && !sh.closed
    requires NoResetSince(k.log, AfterKeep(cfg, now, sh, k, pings, l).log)
    ensures WaitedSoFar(cfg, now, AfterKeep(cfg, now, sh, k, pings, l)) == WaitedSoFar(cfg, now, k)
  {
    match l
    case ReadChangedOff => StretchSnoc(k.log, Reconfigured);
    case ReadChanged => StretchSnoc(k.log, Reconfigured);
    case RecheckInterval(_) => Snoc(k.log, Skipped(k.pc.millis * MILLI));
    case PingDone => PingDoneWaits(cfg, now, sh, k, pings);
    case _ =>
  }

  lemma StepWaits(s: State, l: Label, t: State)
    requires Follows(s, l, t) && PingingInv(s.now, s.keeper, s.pings) && !s.shared.closed
    requires NoResetSince(s.keeper.log, t.keeper.log)
    ensures t.now - s.now == WaitedSoFar(t.cfg, t.now, t.keeper) - WaitedSoFar(s.cfg, s.now, s.keeper)
                             + Late(s.keeper.pc, s.now, l)
  {
    if l.Keep? {
      KeepWaits(s.cfg, s.now, s.shared, s.keeper, s.pings, l.k);
    } else if StartsPongWait(s.keeper.pc, l) {
      assert s.keeper.pc.pong.None?;
    }
  }

  lemma LogGrows(states: seq<State>, labels: seq<Label>, i: nat)
    requires IsSegment(states, labels) && i < |labels|
    ensures states[i].keeper.log <= states[i + 1].keeper.log
  {
    FollowsAt(states, labels, i);
  }

  lemma {:induction false} LogGrew(states: seq<State>, labels: seq<Label>, lo: nat, hi: nat)
    requires IsSegment(states, labels) && lo <= hi <= |labels|
    ensures states[lo].keeper.log <= states[hi].keeper.log
    decreases hi
  {
    if lo < hi {
      LogGrew(states, labels, lo, hi - 1);
      LogGrows(states, labels, hi - 1);
    }
  }

  /** The time a step takes is what it adds to the waits, plus its lateness. */
  ghost predicate Accounted(s: State, l: Label, t: State) {
    t.now - s.now == WaitedSoFar(t.cfg, t.now, t.keeper) - WaitedSoFar(s.cfg, s.now, s.keeper) + Late(s.keeper.pc, s.now, l)
  }

  lemma {:induction false} OpenUntil(states: seq<State>, labels: seq<Label>, i: nat, hi: nat)
    requires IsSegment(states, labels) && i <= hi <= |labels| && !states[hi].shared.closed
    ensures !states[i].shared.closed
    decreases hi - i
  {
    if i < hi {
      OpenUntil(states, labels, i + 1, hi);
      OpenBefore(states, labels, i);
    }
  }

  lemma AccountedAt(states: seq<State>, labels: seq<Label>, lo: nat, hi: nat, i: nat)
    requires IsSegment(states, labels) && lo <= i < hi <= |labels| && !states[hi].shared.closed
    requires PingingInv(states[i].now, states[i].keeper, states[i].pings)
    requires NoResetSince(states[lo].keeper.log, states[hi].keeper.log)
    ensures Accounted(states[i], labels[i], states[i + 1])
  {
    LogGrew(states, labels, lo, i);
    LogGrew(states, labels, i, i + 1);
    LogGrew(states, labels, i + 1, hi);
    StretchMonotone(states[i + 1].keeper.log, states[hi].keeper.log);
    OpenUntil(states, labels, i, hi);
    FollowsAt(states, labels, i);
    StepWaits(states[i], labels[i], states[i + 1]);
  }

  lemma {:induction false} AccountsAddUp(states: seq<State>, labels: seq<Label>, lo: nat, hi: nat)
    requires lo <= hi <= |labels| < |states|
    requires forall i {:trigger labels[i]} :: lo <= i < hi ==> Accounted(states[i], labels[i], states[i + 1])
    ensures states[hi].now - states[lo].now
         == WaitedSoFar(states[hi].cfg, states[hi].now, states[hi].keeper)
            - WaitedSoFar(states[lo].cfg, states[lo].now, states[lo].keeper)
            + LateTime(states, labels, lo, hi)
    decreases hi
  {
    if lo < hi {
      AccountsAddUp(states, labels, lo, hi - 1);
      assert Accounted(states[hi - 1], labels[hi - 1], states[hi]);
    }
  }

  /**
   Where the time goes, exactly: over any stretch of an open client's run in which the keepalive loop logs
   no answer, reconfiguration or force, the time that passes is the interval and pong waits of its log,
   plus the time in which no timer of its was running.
   */
  lemma TimeIsWaitsAndLateness(states: seq<State>, labels: seq<Label>, lo: nat, hi: nat)
    requires IsSegment(states, labels) && lo <= hi <= |labels| && !states[hi].shared.closed
    requires forall i :: lo <= i <= hi ==> PingingInv(states[i].now, states[i].keeper, states[i].pings)
    requires NoResetSince(states[lo].keeper.log, states[hi].keeper.log)
    ensures states[hi].now - states[lo].now
         == WaitedSoFar(states[hi].cfg, states[hi].now, states[hi].keeper)
            - WaitedSoFar(states[lo].cfg, states[lo].now, states[lo].keeper)
            + LateTime(states, labels, lo, hi)
  {
    forall i | lo <= i < hi
      ensures Accounted(states[i], labels[i], states[i + 1])
    {
      AccountedAt(states, labels, lo, hi, i);
    }
    AccountsAddUp(states, labels, lo, hi);
  }

  // ------------------------------------------------------------------ at the force

  lemma NothingSinceReset(log: seq<Entry>)
    requires StretchStart(log) == |log|
    ensures Misses(log) == 0 && Waited(log) == 0
  {
    if log != [] {
      var n := |log| - 1;
      assert StretchStart(log[..n]) <= n;
    }
  }

  /** Since the last reset, with one interval in force: every entry is one miss and one round, at most one
      timed-out ping, and at least one interval of waiting. */
  ghost predicate OnlyMisses(log: seq<Entry>, log': seq<Entry>, interval: nat) {
    && Misses(log') == |log'| - |log|
    && Rounds(log') == Rounds(log) + Misses(log')
    && TimeOuts(log') <= TimeOuts(log) + Misses(log')
    && Misses(log') * interval <= Waited(log')
  }

  lemma OneMoreMiss(log: seq<Entry>, log': seq<Entry>, e: Entry, interval: nat)
    requires OnlyMisses(log, log', interval) && e.Failed? && e.interval == interval
    ensures OnlyMisses(log, log' + [e], interval)
  {
    Snoc(log', e);
    RoundsSnoc(log', e);
    TimeOutsSnoc(log', e);
    assert (Misses(log') + 1) * interval == Misses(log') * interval + interval;
  }

  lemma {:induction false} StretchOfMisses(log: seq<Entry>, log': seq<Entry>, millis: U32)
    requires StretchStart(log) == |log| && NoResetSince(log, log') && SameInterval(log, log', millis)
    ensures OnlyMisses(log, log', millis * MILLI)
    decreases |log'|
  {
    if log == log' {
      NothingSinceReset(log);
    } else {
      var n := |log'| - 1;
      StretchEntries(log', n);
      StretchOfMisses(log, log'[..n], millis);
      OneMoreMiss(log, log'[..n], log'[n], millis * MILLI);
      assert log' == log'[..n] + [log'[n]];
    }
  }

  /** The keepalive loop is between two rounds, right after a reset. */
  predicate Fresh(k: Keeper) {
    RoundMillis(k.pc).None? && StretchStart(k.log) == |k.log|
  }

  /** The entry that makes the loop force a redial is the allowed-th miss, and completes the waits. */
  lemma ForcingMiss(cfg: Config, now: nat, sh: Shared, k: Keeper, pings: Pings.State) returns (failed: Entry)
    requires KeeperGuard(k.pc, PingDone, now, pings) && AfterKeep(cfg, now, sh, k, pings, PingDone).pc.ForceCheck?
    requires MissInv(cfg, k) && PingingInv(now, k, pings)
    ensures failed.Failed? && failed.interval == k.pc.millis * MILLI && PongWait(failed.pong) <= PingTimeout(cfg)
    ensures IsTimeOut(failed) <==> RanLate(k.pc, pings)
    ensures Misses(k.log + [failed]) == MissesAllowed(PolicyOf(cfg.keepalive))
    ensures WaitedSoFar(cfg, now, k) == Waited(k.log + [failed])
  {
    failed := FailedEntry(cfg, k.pc.millis, pings.pings[k.pc.p].pc.outcome);
    Snoc(k.log, failed);
  }

  /** What a stretch of misses under one interval amounts to. */
  lemma MissesTakeTime(log: seq<Entry>, log': seq<Entry>, millis: U32, timeout: nat)
    requires StretchStart(log) == |log| && NoResetSince(log, log') && SameInterval(log, log', millis)
    requires WaitsBounded(log', timeout)
    ensures OnlyMisses(log, log', millis * MILLI)
    ensures Waited(log') <= Misses(log') * (millis * MILLI + timeout)
  {
    StretchOfMisses(log, log', millis);
    StretchMonotone(log, log');
    forall i | StretchStart(log') <= i < |log'|
      ensures log'[i].Failed?
    {
      StretchEntries(log', i);
    }
    WaitedBound(log', millis * MILLI, timeout);
  }

  /** What the log says when the loop decides to force a redial, `log` being the log at the last reset. */
  ghost predicate AtForce(cfg: Config, now: nat, k: Keeper, pings: Pings.State, log: seq<Entry>, millis: U32) {
    var allowed, interval := MissesAllowed(PolicyOf(cfg.keepalive)), millis * MILLI;
    && allowed * interval <= WaitedSoFar(cfg, now, k) <= allowed * (interval + PingTimeout(cfg))
    && Rounds(k.log) + 1 == Rounds(log) + allowed
    && TimeOuts(k.log) + One(RanLate(k.pc, pings)) <= TimeOuts(log) + allowed
  }

  lemma LastMissCounts(log: seq<Entry>, before: seq<Entry>, failed: Entry, millis: U32, timeout: nat)
    requires StretchStart(log) == |log| && NoResetSince(log, before) && SameInterval(log, before, millis)
    requires WaitsBounded(before, timeout)
    requires failed.Failed? && failed.interval == millis * MILLI && PongWait(failed.pong) <= timeout
    ensures OnlyMisses(log, before + [failed], millis * MILLI)
    ensures Waited(before + [failed]) <= Misses(before + [failed]) * (millis * MILLI + timeout)
    ensures Rounds(before + [failed]) == Rounds(before) + 1
    ensures TimeOuts(before + [failed]) == TimeOuts(before) + One(IsTimeOut(failed))
  {
    StretchSnoc(before, failed);
    MissesTakeTime(log, before + [failed], millis, timeout);
    RoundsSnoc(before, failed);
    TimeOutsSnoc(before, failed);
  }

  lemma LastMissAtForce(cfg: Config, now: nat, k: Keeper, pings: Pings.State, log: seq<Entry>, millis: U32, failed: Entry)
    requires StretchStart(log) == |log| && NoResetSince(log, k.log) && SameInterval(log, k.log, millis)
    requires WaitsBounded(k.log, PingTimeout(cfg))
    requires failed.Failed? && failed.interval == millis * MILLI && PongWait(failed.pong) <= PingTimeout(cfg)
    requires IsTimeOut(failed) <==> RanLate(k.pc, pings)
    requires Misses(k.log + [failed]) == MissesAllowed(PolicyOf(cfg.keepalive))
    requires WaitedSoFar(cfg, now, k) == Waited(k.log + [failed])
    ensures AtForce(cfg, now, k, pings, log, millis)
  {
    LastMissCounts(log, k.log, failed, millis, PingTimeout(cfg));
  }

  lemma LogAtForce(cfg: Config, now: nat, sh: Shared, k: Keeper, pings: Pings.State, log: seq<Entry>)
    requires KeeperGuard(k.pc, PingDone, now, pings) && AfterKeep(cfg, now, sh, k, pings, PingDone).pc.ForceCheck?
    requires MissInv(cfg, k) && PingingInv(now, k, pings) && Steady(sh, k.pc)
    requires StretchStart(log) == |log| && NoResetSince(log, k.log) && SameInterval(log, k.log, sh.millis)
    ensures AtForce(cfg, now, k, pings, log, sh.millis)
  {
    var failed := ForcingMiss(cfg, now, sh, k, pings);
    LastMissAtForce(cfg, now, k, pings, log, sh.millis, failed);
  }
}
