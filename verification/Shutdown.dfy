/** What `disconnect` guarantees about the read loop and the keepalive loop. */
module Shutdown {
  import opened Prelude
  import opened Engine
  import Handlers
  import Subscribers
  import Pings
  import Requests

  /** `disconnect` has set the flag and notified the read loop. */
  predicate WakeIssued(sh: Shared) {
    sh.closer.NotifyChanged? || sh.closer.ClosingSink? || sh.closer.Done?
  }

  /** `disconnect` has also notified the keepalive loop. */
  predicate ChangeIssued(sh: Shared) {
    sh.closer.ClosingSink? || sh.closer.Done?
  }

  /** The read loop has consumed a wake, or decided, and every path from here exits once closed. */
  predicate OnWayOut(pc: ReaderPc) {
    pc.Woken? || pc.WokenInBackoff? || pc == AfterRead(Reason.Shutdown) || pc.ClearAndExit? || pc.Exited?
  }

  predicate Redialling(pc: ReaderPc) {
    || pc == AfterRead(Reason.Forced) || pc.Courtesy? || pc.ClearPongs? || pc.StartBackoff? || pc.PollTimer?
    || pc.PollBackoffWake? || pc.ParkedInBackoff? || pc.WokenInBackoff? || pc.CheckClosed? || pc.StartDial?
    || pc.Dialing? || pc.SwapSink? || pc.NotifySubscribers?
  }

  ghost predicate ReaderInv(cfg: Config, sh: Shared, pc: ReaderPc) {
    && (sh.closed <==> !sh.closer.NotCalled?)
    && (WakeIssued(sh) ==> sh.wake || OnWayOut(pc))
    && (pc == AfterRead(Reason.Shutdown) || pc.ClearAndExit? || pc == Exited(Disconnected) ==> sh.closed)
    && (Redialling(pc) ==> cfg.reconnects)
    && (pc == Exited(NoReconnector) ==> !cfg.reconnects)
  }

  ghost predicate KeeperInv(sh: Shared, pc: KeeperPc) {
    ChangeIssued(sh) ==> sh.changed || pc.Head? || pc.Stopped?
  }

  lemma ReadKeepsReaderInv(cfg: Config, now: nat, sh: Shared, r: Reader, l: ReaderLabel, settled: bool)
    requires ReaderInv(cfg, sh, r.pc) && ReaderGuard(r.pc, l, now)
    ensures ReaderInv(cfg, NextShared(sh, Read(l)), NextPc(cfg, now, sh, r, l, settled))
  {
  }

  lemma StepKeepsReaderInv(cfg: Config, now: nat, sh: Shared, r: Reader, l: Label, settled: bool)
    requires ReaderInv(cfg, sh, r.pc) && (l.Client? ==> ClientGuard(sh, l.a))
    requires l.Read? ==> ReaderGuard(r.pc, l.r, now)
    ensures ReaderInv(cfg, NextShared(sh, l), NextReader(cfg, now, sh, r, l, settled).pc)
  {
    if l.Read? {
      ReadKeepsReaderInv(cfg, now, sh, r, l.r, settled);
    }
  }

  lemma StepKeepsKeeperInv(cfg: Config, now: nat, sh: Shared, k: Keeper, pings: Pings.State, l: Label)
    requires KeeperInv(sh, k.pc) && (sh.closed <==> !sh.closer.NotCalled?)
    requires l.Client? ==> ClientGuard(sh, l.a)
    requires l.Keep? ==> KeeperGuard(k.pc, l.k, now, pings)
    ensures KeeperInv(NextShared(sh, l), NextKeeper(cfg, now, sh, k, pings, l).pc)
  {
  }

  // ------------------------------------------------------------------ the read loop runs out of steps

  function HandlerRank(h: Handlers.Reader): nat {
    match h
    case Looking(_, _) => 9
    case Found(_, _) => 8
    case Pushed(_) => 7
    case Unhandled(_) => 7
    case Idle => 6
  }

  function PhaseRank(p: Subscribers.Phase): nat {
    match p
    case Swapped => 9
    case Notifying(_) => 8
    case Quiet => 6
  }

  /** How many of its own steps the read loop is away from its exit once `disconnect` has notified
      it, not counting the signalling of individual subscribers. */
  function Rank(pc: ReaderPc, call: Handlers.Reader, note: Handlers.Reader, phase: Subscribers.Phase): nat {
    match pc
    case Exited(_) => 0
    case ClearAndExit => 1
    case WokenInBackoff => 1
    case CheckClosed => 1
    case AfterRead(_) => 2
    case PollBackoffWake(_) => 2
    case Woken => 3
    case PollTimer(_) => 3
    case PollWake => 4
    case ParkedInBackoff(_) => 4
    case PollRecv => 5
    case StartBackoff => 5
    case Parked => 6
    case ClearPongs => 6
    case Courtesy => 7
    case InCall => HandlerRank(call)
    case InSend => HandlerRank(note)
    case NotifySubscribers => PhaseRank(phase)
    case SwapSink => 10
    case Dispatch(_) => 11
    case Dialing => 11
    case StartDial => 12
  }

  const RANK_MAX: nat := 12
  /** A newly received event takes the read loop from polling to dispatching. */
  const RANK_PER_EVENT: nat := 6

  function RankOf(s: State): nat {
    Rank(s.reader.pc, s.calls.reader, s.notes.reader, s.subs.phase)
  }

  lemma RankAtMostMax(s: State)
    ensures RankOf(s) <= RANK_MAX
  {
  }

  predicate IsSignal(l: Label) {
    l.Read? && l.r.NotifyStep? && l.r.n.Signal?
  }

  /** A read-loop step other than receiving a new event or signalling one more subscriber. */
  predicate Counts(l: Label) {
    l.Read? && !IsEvent(l) && !IsSignal(l)
  }

  lemma HandlerReaderStep(h: Handlers.State, l: Handlers.Label)
    requires Handlers.Enabled(h, l)
    ensures Handlers.IsReaderLabel(l) && !l.Arrive? ==>
              HandlerRank(Handlers.NewReader(h, l)) < HandlerRank(h.reader)
    ensures l.Arrive? ==> HandlerRank(Handlers.NewReader(h, l)) == 9
    ensures !Handlers.IsReaderLabel(l) ==> Handlers.NewReader(h, l) == h.reader
  {
  }

  lemma SubscriberPhaseStep(s: Subscribers.State, l: Subscribers.Label)
    requires Subscribers.Enabled(s, l)
    ensures Subscribers.IsReaderLabel(l) && !l.Swap? && !l.Signal? ==>
              PhaseRank(Subscribers.Step(s, l).phase) < PhaseRank(s.phase)
    ensures l.Signal? ==> Subscribers.Step(s, l).phase.Notifying? && s.phase.Notifying?
                          && Subscribers.Step(s, l).phase.remaining < s.phase.remaining
    ensures l.Swap? ==> Subscribers.Step(s, l).phase.Swapped?
    ensures !Subscribers.IsReaderLabel(l) ==> Subscribers.Step(s, l).phase == s.phase
  {
  }

  /** The read loop's position agrees with what it is in the middle of. */
  ghost predicate Coupled(s: State) {
    && (s.reader.pc.InCall? <==> !s.calls.reader.Idle?)
    && (s.reader.pc.InSend? <==> !s.notes.reader.Idle?)
    && (s.reader.pc.NotifySubscribers? <==> !s.subs.phase.Quiet?)
  }

  /** When the read loop is inside a handler registry or the subscriber list after its own step. */
  lemma InsideAfter(cfg: Config, now: nat, sh: Shared, r: Reader, l: ReaderLabel, settled: bool)
    requires ReaderGuard(r.pc, l, now)
    ensures var pc := NextPc(cfg, now, sh, r, l, settled);
            && (pc.InCall? <==> (l.Handle? && r.pc.event.Call?) || (l.CallStep? && !settled))
            && (pc.InSend? <==> (l.Handle? && r.pc.event.Send?) || (l.SendStep? && !settled))
            && (pc.NotifySubscribers? <==> l.SwapIn? || (l.NotifyStep? && !settled))
  {
  }

  lemma HandlersAfter(s: State, l: Label)
    requires Enabled(s, l)
    ensures CallLabel(s.reader.pc, l).None? || !Handlers.IsReaderLabel(CallLabel(s.reader.pc, l).value)
            ==> NewCalls(s, l).reader == s.calls.reader
    ensures NoteLabel(s.reader.pc, l).None? || !Handlers.IsReaderLabel(NoteLabel(s.reader.pc, l).value)
            ==> NewNotes(s, l).reader == s.notes.reader
    ensures CallLabel(s.reader.pc, l).Some? && CallLabel(s.reader.pc, l).value.Arrive? ==> !NewCalls(s, l).reader.Idle?
    ensures NoteLabel(s.reader.pc, l).Some? && NoteLabel(s.reader.pc, l).value.Arrive? ==> !NewNotes(s, l).reader.Idle?
  {
    if CallLabel(s.reader.pc, l).Some? {
      HandlerReaderStep(s.calls, CallLabel(s.reader.pc, l).value);
    }
    if NoteLabel(s.reader.pc, l).Some? {
      HandlerReaderStep(s.notes, NoteLabel(s.reader.pc, l).value);
    }
  }

  lemma PhaseAfter(s: State, l: Label)
    requires Enabled(s, l)
    ensures SubLabel(l).None? || !Subscribers.IsReaderLabel(SubLabel(l).value) ==> NewSubs(s, l).phase == s.subs.phase
    ensures SubLabel(l) == Some(Subscribers.Swap) ==> NewSubs(s, l).phase.Swapped?
  {
    if SubLabel(l).Some? {
      SubscriberPhaseStep(s.subs, SubLabel(l).value);
    }
  }

  lemma StepKeepsCoupled(s: State, l: Label)
    requires Enabled(s, l) && Coupled(s)
    ensures Coupled(Step(s, l))
  {
    HandlersAfter(s, l);
    PhaseAfter(s, l);
    if l.Read? {
      InsideAfter(s.cfg, s.now, s.shared, s.reader, l.r, Settled(s, l));
    }
  }

  /** Once `disconnect` has notified the read loop, each of its steps brings it closer to its exit. */
  lemma PcRankDecreases(cfg: Config, now: nat, sh: Shared, r: Reader, l: ReaderLabel, settled: bool,
                        call: Handlers.Reader, note: Handlers.Reader, phase: Subscribers.Phase,
                        call': Handlers.Reader, note': Handlers.Reader, phase': Subscribers.Phase)
    requires ReaderInv(cfg, sh, r.pc) && WakeIssued(sh) && ReaderGuard(r.pc, l, now) && !l.RecvEvent?
    requires l.CallStep? && !settled ==> HandlerRank(call') < HandlerRank(call)
    requires l.SendStep? && !settled ==> HandlerRank(note') < HandlerRank(note)
    requires l.NotifyStep? && !settled ==> PhaseRank(phase') < PhaseRank(phase)
    ensures Rank(NextPc(cfg, now, sh, r, l, settled), call', note', phase') < Rank(r.pc, call, note, phase)
  {
  }

  lemma StepDecreasesRank(s: State, l: Label)
    requires Enabled(s, l) && ReaderInv(s.cfg, s.shared, s.reader.pc) && WakeIssued(s.shared) && Counts(l)
    ensures RankOf(Step(s, l)) < RankOf(s)
  {
    if CallLabel(s.reader.pc, l).Some? {
      HandlerReaderStep(s.calls, CallLabel(s.reader.pc, l).value);
    }
    if NoteLabel(s.reader.pc, l).Some? {
      HandlerReaderStep(s.notes, NoteLabel(s.reader.pc, l).value);
    }
    if SubLabel(l).Some? {
      SubscriberPhaseStep(s.subs, SubLabel(l).value);
    }
    PcRankDecreases(s.cfg, s.now, s.shared, s.reader, l.r, Settled(s, l),
                    s.calls.reader, s.notes.reader, s.subs.phase,
                    NewCalls(s, l).reader, NewNotes(s, l).reader, NewSubs(s, l).phase);
  }

  /** Everything else leaves that distance alone, except a newly received event. */
  lemma StepKeepsRank(s: State, l: Label)
    requires Enabled(s, l) && !Counts(l) && Coupled(s)
    ensures RankOf(Step(s, l)) <= RankOf(s) + RANK_PER_EVENT * One(IsEvent(l))
  {
    HandlersAfter(s, l);
    PhaseAfter(s, l);
    if IsSignal(l) {
      SubscriberPhaseStep(s.subs, l.r.n);
      InsideAfter(s.cfg, s.now, s.shared, s.reader, l.r, Settled(s, l));
    }
  }

  predicate IsEvent(l: Label) {
    l.Read? && l.r.RecvEvent?
  }

  function CountedSteps(labels: seq<Label>): nat {
    if labels == [] then 0
    else CountedSteps(labels[..|labels| - 1]) + One(Counts(labels[|labels| - 1]))
  }

  function EventsReceived(labels: seq<Label>): nat {
    if labels == [] then 0
    else EventsReceived(labels[..|labels| - 1]) + One(IsEvent(labels[|labels| - 1]))
  }

  function DialsStarted(labels: seq<Label>): nat {
    if labels == [] then 0
    else DialsStarted(labels[..|labels| - 1]) + One(labels[|labels| - 1] == Read(BeginDial))
  }

  ghost predicate Inv(s: State) {
    && ReaderInv(s.cfg, s.shared, s.reader.pc)
    && KeeperInv(s.shared, s.keeper.pc)
    && Coupled(s)
  }

  lemma StepKeepsInv(s: State, l: Label)
    requires Inv(s) && Enabled(s, l)
    ensures Inv(Step(s, l))
  {
    StepKeepsReaderInv(s.cfg, s.now, s.shared, s.reader, l, Settled(s, l));
    StepKeepsKeeperInv(s.cfg, s.now, s.shared, s.keeper, s.pings, l);
    StepKeepsCoupled(s, l);
  }

  /** The flag is sticky and `disconnect` never takes a notification back. */
  lemma SharedMonotone(sh: Shared, l: Label)
    requires (l.Client? ==> ClientGuard(sh, l.a)) && (sh.closed <==> !sh.closer.NotCalled?)
    ensures sh.closed ==> NextShared(sh, l).closed
    ensures WakeIssued(sh) ==> WakeIssued(NextShared(sh, l))
  {
  }

  lemma InitOfSegment(states: seq<State>, labels: seq<Label>)
    requires IsSegment(states, labels) && labels != []
    ensures IsSegment(states[..|labels|], labels[..|labels| - 1])
    ensures states[..|labels|][|labels| - 1] == states[|labels| - 1]
  {
    var n := |labels| - 1;
    forall i | 0 <= i < n
      ensures Follows(states[..n + 1][i], labels[..n][i], states[..n + 1][i + 1])
    {
      FollowsAt(states, labels, i);
      assert states[..n + 1][i] == states[i] && states[..n + 1][i + 1] == states[i + 1];
    }
  }

  /** One step towards the exit. */
  lemma StepTowardsExit(s: State, l: Label)
    requires Inv(s) && Enabled(s, l) && WakeIssued(s.shared)
    ensures Inv(Step(s, l)) && WakeIssued(Step(s, l).shared)
    ensures One(Counts(l)) + RankOf(Step(s, l)) <= RankOf(s) + RANK_PER_EVENT * One(IsEvent(l))
  {
    StepKeepsInv(s, l);
    SharedMonotone(s.shared, l);
    if Counts(l) {
      StepDecreasesRank(s, l);
    } else {
      StepKeepsRank(s, l);
    }
  }

  lemma ReaderNeverParksUnwoken(s: State)
    requires Inv(s) && WakeIssued(s.shared)
    ensures s.reader.pc.Parked? || s.reader.pc.ParkedInBackoff? ==> s.shared.wake
  {
  }

  /**
   No lost shutdown, over whole runs. From the moment `disconnect` has notified the read loop, in any
   interleaving, the read loop takes at most `RANK_MAX` more steps plus `RANK_PER_EVENT` for each
   inbound event that was already there to receive; and it is never parked without a wake latched.
   */
  lemma {:induction false} ReaderRunsOut(states: seq<State>, labels: seq<Label>)
    requires IsSegment(states, labels) && Inv(states[0]) && WakeIssued(states[0].shared)
    ensures var last := states[|labels|];
            && Inv(last) && WakeIssued(last.shared)
            && CountedSteps(labels) + RankOf(last) <= RankOf(states[0]) + RANK_PER_EVENT * EventsReceived(labels)
            && (last.reader.pc.Parked? || last.reader.pc.ParkedInBackoff? ==> last.shared.wake)
    decreases |labels|
  {
    if labels != [] {
      var n := |labels| - 1;
      InitOfSegment(states, labels);
      ReaderRunsOut(states[..n + 1], labels[..n]);
      FollowsAt(states, labels, n);
      StepTowardsExit(states[n], labels[n]);
    }
    ReaderNeverParksUnwoken(states[|labels|]);
  }

  // ------------------------------------------------------------------ the keepalive loop runs out too

  function KeeperRank(pc: KeeperPc): nat {
    match pc
    case Stopped => 0
    case Head => 1
    case CheckBeforePing(_) => 1
    case PollOff => 2
    case PollChanged(_, _) => 2
    case ForceCheck => 2
    case ForceNotify => 2
    case Load => 3
    case ParkedOff => 3
    case ParkedOn(_, _) => 3
    case Pinging(_, _, _) => 3
    case PollInterval(_, _) => 4
    case Recheck(_) => 4
  }

  function KeeperSteps(labels: seq<Label>): nat {
    if labels == [] then 0
    else KeeperSteps(labels[..|labels| - 1]) + One(labels[|labels| - 1].Keep?)
  }

  lemma KeepDecreasesRank(cfg: Config, now: nat, sh: Shared, k: Keeper, pings: Pings.State, l: KeeperLabel)
    requires KeeperInv(sh, k.pc) && ChangeIssued(sh) && sh.closed && KeeperGuard(k.pc, l, now, pings)
    ensures KeeperRank(AfterKeep(cfg, now, sh, k, pings, l).pc) < KeeperRank(k.pc)
  {
  }

  lemma ChangeStaysIssued(sh: Shared, l: Label)
    requires (l.Client? ==> ClientGuard(sh, l.a)) && (sh.closed <==> !sh.closer.NotCalled?)
    ensures ChangeIssued(sh) ==> ChangeIssued(NextShared(sh, l))
  {
  }

  lemma KeeperStepTowardsStop(s: State, l: Label)
    requires Inv(s) && Enabled(s, l) && ChangeIssued(s.shared)
    ensures Inv(Step(s, l)) && ChangeIssued(Step(s, l).shared)
    ensures One(l.Keep?) + KeeperRank(Step(s, l).keeper.pc) <= KeeperRank(s.keeper.pc)
  {
    StepKeepsInv(s, l);
    ChangeStaysIssued(s.shared, l);
    if l.Keep? {
      KeepDecreasesRank(s.cfg, s.now, s.shared, s.keeper, s.pings, l.k);
    }
  }

  /** The same for the keepalive loop: at most four more of its own steps once `disconnect` has
      notified it, and never parked without its token latched. */
  lemma {:induction false} KeeperRunsOut(states: seq<State>, labels: seq<Label>)
    requires IsSegment(states, labels) && Inv(states[0]) && ChangeIssued(states[0].shared)
    ensures var last := states[|labels|];
            && Inv(last) && ChangeIssued(last.shared)
            && KeeperSteps(labels) + KeeperRank(last.keeper.pc) <= KeeperRank(states[0].keeper.pc) <= 4
            && (last.keeper.pc.ParkedOff? || last.keeper.pc.ParkedOn? ==> last.shared.changed)
    decreases |labels|
  {
    if labels != [] {
      var n := |labels| - 1;
      InitOfSegment(states, labels);
      KeeperRunsOut(states[..n + 1], labels[..n]);
      FollowsAt(states, labels, n);
      KeeperStepTowardsStop(states[n], labels[n]);
    }
  }

  // ------------------------------------------------------------------ shutdown is final

  lemma NoDialAfterClosed(s: State, l: Label)
    requires Inv(s) && Enabled(s, l) && s.shared.closed
    ensures Inv(Step(s, l)) && Step(s, l).shared.closed
    ensures One(l == Read(BeginDial)) + One(Step(s, l).reader.pc.StartDial?) <= One(s.reader.pc.StartDial?)
  {
    StepKeepsInv(s, l);
    SharedMonotone(s.shared, l);
  }

  /**
   Shutdown is final, over whole runs. After `closed` is set at most one dial can start, and only one
   whose closed check had already passed. A dial that was running when the flag was set is then the
   last one.
   */
  lemma {:induction false} AtMostOneDialAfterClosed(states: seq<State>, labels: seq<Label>)
    requires IsSegment(states, labels) && Inv(states[0]) && states[0].shared.closed
    ensures states[|labels|].shared.closed && Inv(states[|labels|])
    ensures DialsStarted(labels) + One(states[|labels|].reader.pc.StartDial?) <= One(states[0].reader.pc.StartDial?)
    ensures DialsStarted(labels) + One(states[0].reader.pc.Dialing?) <= 1
    decreases |labels|
  {
    if labels != [] {
      var n := |labels| - 1;
      InitOfSegment(states, labels);
      AtMostOneDialAfterClosed(states[..n + 1], labels[..n]);
      FollowsAt(states, labels, n);
      NoDialAfterClosed(states[n], labels[n]);
    }
  }

  /** The read loop exits only because of `disconnect`, or because the stream ended and there is
      nothing to redial with. */
  lemma ReaderExitsOnlyIf(s: State, l: Label)
    requires Inv(s) && Enabled(s, l) && !s.reader.pc.Exited? && Step(s, l).reader.pc.Exited?
    ensures s.shared.closed || (!s.cfg.reconnects && s.reader.pc == AfterRead(Eof))
  {
  }

  // ------------------------------------------------------------------ nothing new is sent

  /** A call that has not begun, or was refused: it has not registered and has written nothing. */
  predicate CallRefused(s: Requests.State, c: Requests.CallId) {
    c in s.calls ==> s.calls[c].pc.Start? || s.calls[c].pc == Requests.Returned(Requests.Closed)
  }

  predicate PingRefused(s: Pings.State, p: Pings.PingId) {
    p in s.pings ==> s.pings[p].pc.Start? || s.pings[p].pc == Pings.Returned(Pings.Closed)
  }

  lemma CallStaysRefused(s: Requests.State, l: Requests.Label, c: Requests.CallId)
    requires Requests.Enabled(s, l) && CallRefused(s, c) && (l.CheckClosed? ==> l.closed)
    ensures CallRefused(Requests.Step(s, l), c)
  {
  }

  lemma PingStaysRefused(s: Pings.State, l: Pings.Label, p: Pings.PingId)
    requires Pings.Enabled(s, l) && PingRefused(s, p) && (l.CheckClosed? ==> l.closed)
    ensures PingRefused(Pings.Step(s, l), p)
  {
  }

  ghost predicate Refused(s: State, c: Requests.CallId, p: Pings.PingId) {
    s.shared.closed && CallRefused(s.requests, c) && PingRefused(s.pings, p)
  }

  lemma StepRefuses(states: seq<State>, labels: seq<Label>, i: nat, c: Requests.CallId, p: Pings.PingId)
    requires IsSegment(states, labels) && i < |labels| && Refused(states[i], c, p)
    ensures Refused(states[i + 1], c, p)
  {
    var s, l := states[i], labels[i];
    FollowsAt(states, labels, i);
    if RequestLabel(s.reader.pc, l).Some? {
      CallStaysRefused(s.requests, RequestLabel(s.reader.pc, l).value, c);
    }
    if PingLabel(s.reader.pc, s.shared, l).Some? {
      PingStaysRefused(s.pings, PingLabel(s.reader.pc, s.shared, l).value, p);
    }
  }

  /** Over any interleaving after the flag is set, every call and every ping begun since is refused as
      closed: none of them registers or writes. */
  lemma {:induction false} NewcomersRefused(states: seq<State>, labels: seq<Label>, lo: nat, hi: nat,
                                            c: Requests.CallId, p: Pings.PingId)
    requires IsSegment(states, labels) && lo <= hi <= |labels| && states[lo].shared.closed
    requires c !in states[lo].requests.calls && p !in states[lo].pings.pings
    ensures Refused(states[hi], c, p)
    decreases hi
  {
    if lo < hi {
      NewcomersRefused(states, labels, lo, hi - 1, c, p);
      StepRefuses(states, labels, hi - 1, c, p);
    }
  }
}
