/** No hot redial loop: what every interleaving keeps about backoff rounds, dials and elapsed time since
    the last inbound event. */
module RedialProofs {
  import opened Prelude
  import opened Engine
  import opened RedialRate
  import Backoff

  predicate InRound(pc: ReaderPc) {
    pc.PollTimer? || pc.PollBackoffWake? || pc.ParkedInBackoff?
  }

  /** A finished round whose dial has not started yet. */
  predicate BeforeDial(pc: ReaderPc) {
    pc.WokenInBackoff? || pc.CheckClosed? || pc.StartDial?
  }

  /** The round in progress has the right attempt number, the right length, and started after all
      uncut rounds before it had run their full length. */
  ghost predicate WaitInv(cfg: Config, now: nat, g: Segment, w: Wait) {
    && w.attempt == AttemptOf(|g.rounds|)
    && (var length := Backoff.Jittered(cfg.backoff, w.attempt, w.fraction);
        && g.start + UncutTime(cfg.backoff, g.rounds) + length <= w.deadline
        && w.deadline <= now + length)
  }

  ghost predicate SegmentInv(cfg: Config, now: nat, wake: bool, r: Reader) {
    var g := r.segment;
    && InOrder(g.rounds)
    && r.attempt == AttemptOf(|g.rounds| + One(InRound(r.pc)))
    && (InRound(r.pc) ==> WaitInv(cfg, now, g, r.pc.wait))
    && g.start + UncutTime(cfg.backoff, g.rounds) <= now
    && Cuts(g.rounds) + One(wake) <= g.notified + One(g.latched)
    && g.dials <= |g.rounds|
    && (!r.pc.Exited? ==> g.dials + One(BeforeDial(r.pc)) == |g.rounds|)
  }

  lemma RoundsDoNotShrinkTime(p: Backoff.Policy, rounds: seq<Round>, r: Round)
    ensures UncutTime(p, rounds + [r]) <= UncutTime(p, rounds) + Backoff.Jittered(p, r.attempt, r.fraction)
    ensures r.cut ==> UncutTime(p, rounds + [r]) == UncutTime(p, rounds)
    ensures Cuts(rounds + [r]) == Cuts(rounds) + One(r.cut)
    ensures InOrder(rounds) && r.attempt == AttemptOf(|rounds|) ==> InOrder(rounds + [r])
  {
    Snoc(p, rounds, r);
  }

  predicate FinishesRound(sh: Shared, l: ReaderLabel) {
    l.TimerReady? || (l.ReadBackoffWake? && sh.wake)
  }

  /** The end of a round, by its timer or by a wake. */
  lemma FinishKeepsSegmentInv(cfg: Config, now: nat, wake: bool, r: Reader, cut: bool, pc: ReaderPc)
    requires SegmentInv(cfg, now, wake, r) && InRound(r.pc) && BeforeDial(pc)
    requires if cut then wake else now >= r.pc.wait.deadline
    ensures SegmentInv(cfg, now, wake && !cut, Reader(pc, r.attempt, FinishRound(r.segment, r.pc.wait, cut)))
  {
    RoundsDoNotShrinkTime(cfg.backoff, r.segment.rounds, Round(r.pc.wait.attempt, r.pc.wait.fraction, cut));
  }

  lemma BeginKeepsSegmentInv(cfg: Config, now: nat, wake: bool, r: Reader, fraction: U32, delay: nat)
    requires SegmentInv(cfg, now, wake, r) && r.pc.StartBackoff?
    requires delay == Backoff.Jittered(cfg.backoff, r.attempt, fraction)
    ensures SegmentInv(cfg, now, wake,
                       Reader(PollTimer(Wait(r.attempt, fraction, now + delay)), SaturatingInc(r.attempt), r.segment))
  {
  }

  predicate IsPlain(sh: Shared, l: ReaderLabel) {
    !FinishesRound(sh, l) && !l.BeginBackoff? && !l.RecvEvent?
  }

  /** Steps that finish no round and begin none. */
  lemma PlainPc(cfg: Config, now: nat, sh: Shared, r: Reader, l: ReaderLabel, settled: bool)
    requires IsPlain(sh, l) && ReaderGuard(r.pc, l, now)
    ensures var pc := NextPc(cfg, now, sh, r, l, settled);
            && (InRound(pc) <==> InRound(r.pc)) && (InRound(pc) ==> pc.wait == r.pc.wait)
            && (!pc.Exited? ==> One(l.BeginDial?) + One(BeforeDial(pc)) == One(BeforeDial(r.pc)))
            && (l.BeginDial? ==> BeforeDial(r.pc))
            && !r.pc.Exited?
  {
  }

  lemma PlainKeepsSegmentInv(cfg: Config, now: nat, wake: bool, r: Reader, wake': bool, pc: ReaderPc, dialled: nat)
    requires SegmentInv(cfg, now, wake, r) && (wake' ==> wake) && !r.pc.Exited?
    requires (InRound(pc) <==> InRound(r.pc)) && (InRound(pc) ==> pc.wait == r.pc.wait)
    requires !pc.Exited? ==> dialled + One(BeforeDial(pc)) == One(BeforeDial(r.pc))
    requires dialled <= One(BeforeDial(r.pc))
    ensures SegmentInv(cfg, now, wake', Reader(pc, r.attempt, r.segment.(dials := r.segment.dials + dialled)))
  {
  }

  lemma ReadKeepsSegmentInv(cfg: Config, now: nat, sh: Shared, r: Reader, l: ReaderLabel, settled: bool)
    requires SegmentInv(cfg, now, sh.wake, r)
    requires ReaderGuard(r.pc, l, now) && DelayGuard(cfg, r.attempt, l)
    ensures SegmentInv(cfg, now, NextShared(sh, Read(l)).wake, NextReader(cfg, now, sh, r, Read(l), settled))
  {
    if FinishesRound(sh, l) {
      FinishKeepsSegmentInv(cfg, now, sh.wake, r, l.ReadBackoffWake?, NextPc(cfg, now, sh, r, l, settled));
    } else if l.BeginBackoff? {
      BeginKeepsSegmentInv(cfg, now, sh.wake, r, l.fraction, l.delay);
    } else if !l.RecvEvent? {
      PlainPc(cfg, now, sh, r, l, settled);
      PlainKeepsSegmentInv(cfg, now, sh.wake, r, NextShared(sh, Read(l)).wake,
                           NextPc(cfg, now, sh, r, l, settled), One(l.BeginDial?));
    }
  }

  lemma NonReadKeepsSegmentInv(cfg: Config, now: nat, later: nat, sh: Shared, r: Reader, l: Label)
    requires SegmentInv(cfg, now, sh.wake, r) && !l.Read? && (l.Client? ==> ClientGuard(sh, l.a)) && now <= later
    ensures SegmentInv(cfg, later, NextShared(sh, l).wake, NextReader(cfg, now, sh, r, l, true))
  {
  }

  lemma StepKeepsSegmentInv(s: State, l: Label)
    requires Enabled(s, l) && SegmentInv(s.cfg, s.now, s.shared.wake, s.reader)
    ensures var t := Step(s, l); SegmentInv(t.cfg, t.now, t.shared.wake, t.reader)
  {
    if l.Read? {
      ReadKeepsSegmentInv(s.cfg, s.now, s.shared, s.reader, l.r, Settled(s, l));
    } else {
      NonReadKeepsSegmentInv(s.cfg, s.now, Step(s, l).now, s.shared, s.reader, l);
    }
  }

  /**
   No hot redial loop. Since the last inbound event, however many dials succeeded and dropped at once:
   the i-th dial had a backoff round of its own, computed for attempt i - 1 (saturating); no more
   rounds were cut short than wakes were notified, one more if one was already latched; and at least
   half of each capped exponential delay has passed for every round that was not cut short.
   */
  lemma NoHotRedialLoop(cfg: Config, now: nat, wake: bool, r: Reader)
    requires SegmentInv(cfg, now, wake, r)
    ensures r.segment.dials <= |r.segment.rounds|
    ensures forall i :: 0 <= i < |r.segment.rounds| ==> r.segment.rounds[i].attempt == AttemptOf(i)
    ensures Cuts(r.segment.rounds) <= r.segment.notified + One(r.segment.latched)
    ensures now - r.segment.start >= UncutHalves(cfg.backoff, r.segment.rounds)
  {
    TimeAtLeastHalves(cfg.backoff, r.segment.rounds);
  }

  /** The rate bound that follows for a growing policy: `n` dials against `c` wakes take at least half
      of the first `n - c` delays. */
  lemma DialRate(cfg: Config, now: nat, wake: bool, r: Reader, c: nat)
    requires SegmentInv(cfg, now, wake, r)
    requires Growing(cfg.backoff)
    requires r.segment.notified + One(r.segment.latched) <= c <= r.segment.dials
    ensures now - r.segment.start >= FirstHalves(cfg.backoff, r.segment.dials - c)
  {
    var rounds := r.segment.rounds;
    TimeAtLeastHalves(cfg.backoff, rounds);
    HalvesAtLeastFirst(cfg.backoff, rounds);
    FirstHalvesMonotone(cfg.backoff, r.segment.dials - c, |rounds| - Cuts(rounds));
  }

  /** The same without a bound to choose: against every wake notified since, and one more if one was
      latched at the start. */
  lemma RateFromAccount(cfg: Config, now: nat, wake: bool, r: Reader, start: nat, d: nat, w: nat)
    requires SegmentInv(cfg, now, wake, r) && Growing(cfg.backoff)
    requires r.segment.start == start && r.segment.dials == d && r.segment.notified + One(r.segment.latched) == w
    ensures d >= w ==> now - start >= FirstHalves(cfg.backoff, d - w)
  {
    if d >= w {
      DialRate(cfg, now, wake, r, w);
    }
  }
}
