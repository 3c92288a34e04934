/** What the keepalive loop guarantees: it never waits on a stale interval, and it forces a redial at
    exactly the right miss. */
module DeadPeer {
  import opened Prelude
  import opened Engine
  import opened Keepalive
  import Pings

  // ------------------------------------------------------------------ no stale interval

  /** The stored interval the keepalive loop is waiting on, zero for "off". */
  function WaitingOn(pc: KeeperPc): Option<U32> {
    match pc
    case PollOff => Some(0)
    case ParkedOff => Some(0)
    case PollChanged(millis, _) => Some(millis)
    case PollInterval(millis, _) => Some(millis)
    case ParkedOn(millis, _) => Some(millis)
    case _ => None
  }

  ghost predicate IntervalInv(sh: Shared, pc: KeeperPc) {
    WaitingOn(pc).Some? ==> WaitingOn(pc).value == sh.millis || sh.changed || sh.setters > 0
  }

  lemma StepKeepsIntervalInv(cfg: Config, now: nat, sh: Shared, k: Keeper, pings: Pings.State, l: Label)
    requires IntervalInv(sh, k.pc)
    requires l.Client? ==> ClientGuard(sh, l.a)
    requires l.Keep? ==> KeeperGuard(k.pc, l.k, now, pings)
    ensures IntervalInv(NextShared(sh, l), NextKeeper(cfg, now, sh, k, pings, l).pc)
  {
  }

  /** No stale ping interval, for any number of concurrent setters: whenever the loop waits with no
      `changed` token latched and no setter between its store and its notify, it waits on the stored
      interval. */
  lemma NoStaleInterval(sh: Shared, pc: KeeperPc)
    requires IntervalInv(sh, pc) && WaitingOn(pc).Some? && !sh.changed && sh.setters == 0
    ensures LoadedInterval(WaitingOn(pc).value) == LoadedInterval(sh.millis)
  {
  }

  // ------------------------------------------------------------------ exactly at the allowed miss

  /** A redial was forced at every entry where the count of misses reached the allowance, and nowhere
      else, and the count never went past it. */
  ghost predicate ForcedExactly(log: seq<Entry>, allowed: nat) {
    && (forall i :: 0 <= i <= |log| ==> Misses(log[..i]) <= allowed)
    && (forall i :: 0 <= i < |log| ==> (log[i].ForcedRedial? <==> Misses(log[..i]) == allowed))
  }

  ghost predicate WaitsBounded(log: seq<Entry>, timeout: nat) {
    forall i :: 0 <= i < |log| && log[i].Failed? ==> PongWait(log[i].pong) <= timeout
  }

  ghost predicate MissInv(cfg: Config, k: Keeper) {
    var allowed := MissesAllowed(PolicyOf(cfg.keepalive));
    && k.missed == Misses(k.log) < allowed
    && ForcedExactly(k.log, allowed)
    && WaitsBounded(k.log, PingTimeout(cfg))
  }

  lemma ForcedExactlySnoc(log: seq<Entry>, e: Entry, allowed: nat)
    requires ForcedExactly(log, allowed)
    requires e.ForcedRedial? <==> Misses(log) == allowed
    requires Misses(log + [e]) <= allowed
    ensures ForcedExactly(log + [e], allowed)
  {
    var log' := log + [e];
    assert log'[..|log'|] == log' && log'[..|log|] == log;
    forall i | 0 <= i <= |log|
      ensures log'[..i] == log[..i]
    {
    }
    assert log[..|log|] == log;
  }

  lemma AppendKeepsMissInv(cfg: Config, k: Keeper, e: Entry, pc: KeeperPc)
    requires MissInv(cfg, k) && !e.ForcedRedial?
    requires e.Failed? ==> PongWait(e.pong) <= PingTimeout(cfg)
    requires Misses(k.log + [e]) < MissesAllowed(PolicyOf(cfg.keepalive))
    ensures MissInv(cfg, Keeper(pc, Misses(k.log + [e]), k.log + [e]))
  {
    ForcedExactlySnoc(k.log, e, MissesAllowed(PolicyOf(cfg.keepalive)));
  }

  lemma MissKeepsMissInv(cfg: Config, k: Keeper, failed: Entry)
    requires MissInv(cfg, k) && failed.Failed? && PongWait(failed.pong) <= PingTimeout(cfg)
    ensures MissInv(cfg, AfterMiss(cfg, k, failed))
  {
    var allowed := MissesAllowed(PolicyOf(cfg.keepalive));
    Snoc(k.log, failed);
    if Misses(k.log) + 1 >= allowed {
      var log := k.log + [failed];
      ForcedExactlySnoc(k.log, failed, allowed);
      Snoc(log, ForcedRedial);
      ForcedExactlySnoc(log, ForcedRedial, allowed);
    } else {
      AppendKeepsMissInv(cfg, k, failed, Head);
    }
  }

  lemma KeepKeepsMissInv(cfg: Config, now: nat, sh: Shared, k: Keeper, pings: Pings.State, l: KeeperLabel)
    requires MissInv(cfg, k) && KeeperGuard(k.pc, l, now, pings)
    ensures MissInv(cfg, AfterKeep(cfg, now, sh, k, pings, l))
  {
    match l
    case ReadChangedOff =>
      Snoc(k.log, Reconfigured);
      AppendKeepsMissInv(cfg, k, Reconfigured, Head);
    case ReadChanged =>
      Snoc(k.log, Reconfigured);
      AppendKeepsMissInv(cfg, k, Reconfigured, Head);
    case RecheckInterval(_) =>
      var skipped := Skipped(k.pc.millis * MILLI);
      Snoc(k.log, skipped);
      AppendKeepsMissInv(cfg, k, skipped, Head);
    case PingDone =>
      var outcome := pings.pings[k.pc.p].pc.outcome;
      if outcome.Answered? {
        Snoc(k.log, Answered);
        AppendKeepsMissInv(cfg, k, Answered, Head);
      } else {
        MissKeepsMissInv(cfg, k, FailedEntry(cfg, k.pc.millis, outcome));
      }
    case _ =>
  }

  lemma StepKeepsMissInv(cfg: Config, now: nat, sh: Shared, k: Keeper, pings: Pings.State, l: Label)
    requires MissInv(cfg, k) && (l.Keep? ==> KeeperGuard(k.pc, l.k, now, pings))
    ensures MissInv(cfg, NextKeeper(cfg, now, sh, k, pings, l))
  {
    if l.Keep? {
      KeepKeepsMissInv(cfg, now, sh, k, pings, l.k);
    }
  }

  /** The counter stays below the allowance, so its saturating increment never saturates. */
  lemma CounterNeverSaturates(cfg: Config, k: Keeper)
    requires MissInv(cfg, k)
    ensures k.missed < MissesAllowed(PolicyOf(cfg.keepalive)) <= U32_MAX
    ensures SaturatingInc(k.missed) == k.missed + 1
  {
  }

  /**
   Dead-peer detection. A redial is forced by exactly those failed keepalive pings that are the
   allowed-th in a row since the last answered ping, observed reconfiguration or earlier force.
   */
  lemma ForcedAtExactlyTheAllowedMiss(cfg: Config, k: Keeper, i: nat)
    requires MissInv(cfg, k) && i < |k.log|
    ensures k.log[i].ForcedRedial? <==> Misses(k.log[..i]) == MissesAllowed(PolicyOf(cfg.keepalive))
    ensures Misses(k.log[..i]) == MissesAllowed(PolicyOf(cfg.keepalive)) ==> i > 0 && k.log[i - 1].Failed?
  {
    var log := k.log[..i];
    if Misses(log) == MissesAllowed(PolicyOf(cfg.keepalive)) {
      assert i > 0;
      assert log[..i - 1] == k.log[..i - 1];
    }
  }

  // ------------------------------------------------------------------ one interval per stretch

  /** The interval of the ping round in progress. */
  function RoundMillis(pc: KeeperPc): Option<U32> {
    match pc
    case PollChanged(millis, _) => Some(millis)
    case PollInterval(millis, _) => Some(millis)
    case ParkedOn(millis, _) => Some(millis)
    case CheckBeforePing(millis) => Some(millis)
    case Recheck(millis) => Some(millis)
    case Pinging(_, millis, _) => Some(millis)
    case _ => None
  }

  predicate Steady(sh: Shared, pc: KeeperPc) {
    RoundMillis(pc).Some? ==> RoundMillis(pc).value == sh.millis != 0
  }

  /** Everything logged after `log` up to `log'` happened under one stored interval. */
  ghost predicate SameInterval(log: seq<Entry>, log': seq<Entry>, millis: U32) {
    && log <= log'
    && forall j :: |log| <= j < |log'| ==> !log'[j].Skipped? && (log'[j].Failed? ==> log'[j].interval == millis * MILLI)
  }

  predicate IsStore(l: Label) {
    l.Client? && l.a.SetterStore?
  }

  lemma SteadyStep(cfg: Config, now: nat, sh: Shared, k: Keeper, pings: Pings.State, l: Label)
    requires Steady(sh, k.pc) && !IsStore(l)
    requires l.Client? ==> ClientGuard(sh, l.a)
    requires l.Keep? ==> KeeperGuard(k.pc, l.k, now, pings)
    ensures var t := NextKeeper(cfg, now, sh, k, pings, l);
            Steady(NextShared(sh, l), t.pc) && NextShared(sh, l).millis == sh.millis && SameInterval(k.log, t.log, sh.millis)
  {
  }

  /** Over any stretch of any run that starts between two ping rounds and in which no new interval is
      stored, every failed ping is logged with the stored interval. */
  lemma {:induction false} OneIntervalPerStretch(states: seq<State>, labels: seq<Label>, lo: nat, hi: nat)
    requires IsSegment(states, labels) && lo <= hi <= |labels| && Steady(states[lo].shared, states[lo].keeper.pc)
    requires forall i :: lo <= i < hi ==> !IsStore(labels[i])
    ensures Steady(states[hi].shared, states[hi].keeper.pc) && states[hi].shared.millis == states[lo].shared.millis
    ensures SameInterval(states[lo].keeper.log, states[hi].keeper.log, states[lo].shared.millis)
    decreases hi
  {
    if lo < hi {
      OneIntervalPerStretch(states, labels, lo, hi - 1);
      var s := states[hi - 1];
      FollowsAt(states, labels, hi - 1);
      SteadyStep(s.cfg, s.now, s.shared, s.keeper, s.pings, labels[hi - 1]);
    }
  }

  lemma {:induction false} StretchEntries(log: seq<Entry>, j: nat)
    requires StretchStart(log) <= j < |log|
    ensures log[j].Failed? || log[j].Skipped?
  {
    if j < |log| - 1 {
      StretchEntries(log[..|log| - 1], j);
    }
  }

  // ------------------------------------------------------------------ its own pings

  /** How far the awaited ping is agrees with whether its pong wait has started, and it is past its
      deadline only once that has passed. */
  predicate PongOk(now: nat, pong: Option<nat>, pc: Pings.Pc) {
    match pc
    case PollWaiter => pong.Some?
    case PollTimer => pong.Some?
    case ForgetLate => pong.Some? && now >= pong.value
    case Returned(outcome) =>
      if outcome.Answered? then pong.Some?
      else if outcome.TimedOut? then pong.Some? && now >= pong.value
      else pong.None?
    case Dropped => false
    case _ => pong.None?
  }

  /** The loop never loses track of the ping it is waiting for. */
  ghost predicate PingingInv(now: nat, k: Keeper, pings: Pings.State) {
    k.pc.Pinging? ==> k.pc.p in pings.pings && PongOk(now, k.pc.pong, pings.pings[k.pc.p].pc)
  }

  lemma PingStepKeepsPong(s: Pings.State, l: Pings.Label, p: Pings.PingId, now: nat, pong: Option<nat>, pong': Option<nat>)
    requires Pings.Enabled(s, l) && p in s.pings && PongOk(now, pong, s.pings[p].pc) && l != Pings.Drop(p)
    requires l == Pings.PollDelay(p, true) ==> pong.Some? && now >= pong.value
    requires if l == Pings.Sent(p, true) then pong'.Some? else pong' == pong
    ensures p in Pings.Step(s, l).pings && PongOk(now, pong', Pings.Step(s, l).pings[p].pc)
  {
  }

  lemma PongOkLater(now: nat, later: nat, pong: Option<nat>, pc: Pings.Pc)
    requires PongOk(now, pong, pc) && now <= later
    ensures PongOk(later, pong, pc)
  {
  }

  lemma StepKeepsPingingInv(s: State, l: Label)
    requires Enabled(s, l) && PingingInv(s.now, s.keeper, s.pings)
    ensures PingingInv(Step(s, l).now, NextKeeper(s.cfg, s.now, s.shared, s.keeper, s.pings, l), NewPings(s, l))
  {
    var pl := PingLabel(s.reader.pc, s.shared, l);
    if s.keeper.pc.Pinging? && !l.Keep? {
      var p := s.keeper.pc.p;
      var k' := NextKeeper(s.cfg, s.now, s.shared, s.keeper, s.pings, l);
      if pl.Some? {
        PingStepKeepsPong(s.pings, pl.value, p, s.now, s.keeper.pc.pong, k'.pc.pong);
      }
      PongOkLater(s.now, Step(s, l).now, k'.pc.pong, NewPings(s, l).pings[p].pc);
    }
  }

  /** An `Answered` entry is honest: a pong echoing that ping's own token really arrived. */
  lemma AnsweredMeansPong(s: State)
    requires Enabled(s, Keep(PingDone)) && Pings.Inv(s.pings)
    requires NextKeeper(s.cfg, s.now, s.shared, s.keeper, s.pings, Keep(PingDone)).log == s.keeper.log + [Answered]
    ensures var ping := s.pings.pings[s.keeper.pc.p];
            ping.ticket.Some? && Pings.Echoed(s.pings, ping.ticket.value)
  {
    var log := s.keeper.log;
    assert (log + [Answered])[|log|] == Answered;
    Pings.OkMeansOwnPong(s.pings, s.keeper.pc.p);
  }
}
