/**
 What the read loop and the keepalive loop wait for is itself bounded and never stuck: the signals still
 owed to subscribers, the ping being awaited, and the locks the read loop needs.
 */
module Progress {
  import opened Prelude
  import opened Engine
  import Backoff
  import DeadPeer
  import Force
  import Handlers
  import Pings
  import Requests
  import Shutdown
  import Subscribers

  // ------------------------------------------------------------------ signalling

  /** A dial is under way, or with `start` about to begin. */
  predicate Dials(pc: ReaderPc, start: bool) {
    pc.SwapSink? || pc.Dialing? || (start && pc.StartDial?)
  }

  /** Signals the read loop may still send before it begins another dial: those left in the round in
      progress, or a whole round if a dial is under way. */
  function SignalsDue(pc: ReaderPc, subs: Subscribers.State, start: bool): nat {
    if subs.phase.Notifying? then |subs.phase.remaining|
    else if subs.phase.Swapped? || Dials(pc, start) then |subs.subs|
    else 0
  }

  lemma ListAfter(s: Subscribers.State, l: Subscribers.Label)
    requires Subscribers.Enabled(s, l)
    ensures |Subscribers.Step(s, l).subs| == |s.subs| + One(l.Subscribe?)
  {
    if !l.Swap? && !l.LockSubscribers? && !l.UnlockSubscribers? && !l.Subscribe? {
      assert Subscribers.Step(s, l).subs.Keys == s.subs.Keys;
    }
  }

  lemma RoundAfter(s: Subscribers.State, l: Subscribers.Label)
    requires Subscribers.Enabled(s, l)
    ensures var t := Subscribers.Step(s, l);
            && (t.phase.Notifying? ==> |t.phase.remaining| + One(l.Signal?) ==
                                       if s.phase.Notifying? then |s.phase.remaining| else |s.subs|)
            && (t.phase.Notifying? ==> !l.Subscribe? && (s.phase.Notifying? || s.phase.Swapped?))
            && (l.Signal? ==> t.phase.Notifying?)
            && (t.phase.Swapped? ==> s.phase.Swapped? || l.Swap?)
  {
  }

  /** No further dial can begin in this step: the client is closed, or the step is no dial. */
  predicate BeginsNoDial(sh: Shared, l: Label, start: bool) {
    if start then sh.closed else !Force.IsDial(l)
  }

  lemma DialsAfter(cfg: Config, now: nat, sh: Shared, r: Reader, l: ReaderLabel, settled: bool, start: bool)
    requires ReaderGuard(r.pc, l, now) && BeginsNoDial(sh, Read(l), start)
    ensures var pc := NextPc(cfg, now, sh, r, l, settled);
            Dials(pc, start) ==> Dials(r.pc, start) && !l.SwapIn? && !l.NotifyStep?
  {
  }

  /** The same on the parts involved; `sub` is the step of the subscriber list, if any. */
  lemma PartsPaySignals(pc: ReaderPc, subs: Subscribers.State, pc': ReaderPc, sub: Subscribers.Label, start: bool)
    requires Subscribers.Enabled(subs, sub)
    requires sub.Swap? ==> pc.SwapSink?
    requires !subs.phase.Quiet? ==> !Dials(pc', start)
    requires Dials(pc', start) ==> Dials(pc, start)
    ensures One(sub.Signal?) + SignalsDue(pc', Subscribers.Step(subs, sub), start) + |subs.subs|
            <= SignalsDue(pc, subs, start) + |Subscribers.Step(subs, sub).subs|
  {
    ListAfter(subs, sub);
    RoundAfter(subs, sub);
  }

  lemma StepPaysSignals(s: State, l: Label, start: bool)
    requires Enabled(s, l) && Shutdown.Coupled(s) && BeginsNoDial(s.shared, l, start)
    ensures One(Shutdown.IsSignal(l)) + SignalsDue(Step(s, l).reader.pc, Step(s, l).subs, start) + |s.subs.subs|
            <= SignalsDue(s.reader.pc, s.subs, start) + |Step(s, l).subs.subs|
  {
    if l.Read? {
      DialsAfter(s.cfg, s.now, s.shared, s.reader, l.r, Settled(s, l), start);
    }
    if SubLabel(l).Some? {
      PartsPaySignals(s.reader.pc, s.subs, Step(s, l).reader.pc, SubLabel(l).value, start);
    }
  }

  function Signals(labels: seq<Label>): nat {
    if labels == [] then 0
    else Signals(labels[..|labels| - 1]) + One(Shutdown.IsSignal(labels[|labels| - 1]))
  }

  function ReadSteps(labels: seq<Label>): nat {
    if labels == [] then 0
    else ReadSteps(labels[..|labels| - 1]) + One(labels[|labels| - 1].Read?)
  }

  lemma {:induction false} ReadStepsSplit(labels: seq<Label>)
    ensures ReadSteps(labels) == Shutdown.CountedSteps(labels) + Shutdown.EventsReceived(labels) + Signals(labels)
  {
    if labels != [] {
      ReadStepsSplit(labels[..|labels| - 1]);
    }
  }

  lemma DueAtMostAll(s: State, start: bool)
    requires Subscribers.Inv(s.subs)
    ensures SignalsDue(s.reader.pc, s.subs, start) <= |s.subs.subs|
  {
    if s.subs.phase.Notifying? {
      SubsetSize(s.subs.phase.remaining, s.subs.subs.Keys);
    }
  }

  lemma {:induction false} SubsetSize(a: set<nat>, b: set<nat>)
    requires a <= b
    ensures |a| <= |b|
  {
    if a != {} {
      var x :| x in a;
      SubsetSize(a - {x}, b - {x});
    }
  }

  /** After `closed` is set the read loop signals each subscriber at most once more. */
  lemma {:induction false} SignalsRunOut(states: seq<State>, labels: seq<Label>)
    requires IsSegment(states, labels) && Shutdown.Inv(states[0]) && states[0].shared.closed
    ensures var last := states[|labels|];
            && Shutdown.Inv(last) && last.shared.closed
            && Signals(labels) + SignalsDue(last.reader.pc, last.subs, true) + |states[0].subs.subs|
               <= SignalsDue(states[0].reader.pc, states[0].subs, true) + |last.subs.subs|
    decreases |labels|
  {
    if labels != [] {
      var n := |labels| - 1;
      Shutdown.InitOfSegment(states, labels);
      SignalsRunOut(states[..n + 1], labels[..n]);
      FollowsAt(states, labels, n);
      Shutdown.StepKeepsInv(states[n], labels[n]);
      Shutdown.SharedMonotone(states[n].shared, labels[n]);
      StepPaysSignals(states[n], labels[n], true);
    }
  }

  function SignalsIn(labels: seq<Label>, lo: nat, hi: nat): nat
    requires lo <= hi <= |labels|
  {
    if lo == hi then 0 else SignalsIn(labels, lo, hi - 1) + One(Shutdown.IsSignal(labels[hi - 1]))
  }

  function ReadStepsIn(labels: seq<Label>, lo: nat, hi: nat): nat
    requires lo <= hi <= |labels|
  {
    if lo == hi then 0 else ReadStepsIn(labels, lo, hi - 1) + One(labels[hi - 1].Read?)
  }

  lemma {:induction false} ReadStepsInSplit(labels: seq<Label>, lo: nat, hi: nat)
    requires lo <= hi <= |labels|
    ensures ReadStepsIn(labels, lo, hi) == Force.Counted(labels, lo, hi) + Force.Events(labels, lo, hi) + SignalsIn(labels, lo, hi)
    decreases hi
  {
    if lo < hi {
      ReadStepsInSplit(labels, lo, hi - 1);
    }
  }

  /** What a step pays of the signals due. */
  ghost predicate Pays(s: State, l: Label, t: State) {
    One(Shutdown.IsSignal(l)) + SignalsDue(t.reader.pc, t.subs, false) + |s.subs.subs|
    <= SignalsDue(s.reader.pc, s.subs, false) + |t.subs.subs|
  }

  lemma PaysAt(states: seq<State>, labels: seq<Label>, i: nat)
    requires IsSegment(states, labels) && i < |labels| && Shutdown.Coupled(states[i]) && !Force.IsDial(labels[i])
    ensures Pays(states[i], labels[i], states[i + 1])
  {
    FollowsAt(states, labels, i);
    StepPaysSignals(states[i], labels[i], false);
  }

  lemma {:induction false} SignalsAddUp(states: seq<State>, labels: seq<Label>, lo: nat, hi: nat)
    requires lo <= hi <= |labels| < |states|
    requires forall i {:trigger labels[i]} :: lo <= i < hi ==> Pays(states[i], labels[i], states[i + 1])
    ensures SignalsIn(labels, lo, hi) + SignalsDue(states[hi].reader.pc, states[hi].subs, false) + |states[lo].subs.subs|
            <= SignalsDue(states[lo].reader.pc, states[lo].subs, false) + |states[hi].subs.subs|
    decreases hi
  {
    if lo < hi {
      SignalsAddUp(states, labels, lo, hi - 1);
      assert Pays(states[hi - 1], labels[hi - 1], states[hi]);
    }
  }

  /** As long as no dial begins, the read loop signals each subscriber at most once more. */
  lemma SignalsBeforeDial(states: seq<State>, labels: seq<Label>, lo: nat, hi: nat)
    requires IsSegment(states, labels) && lo <= hi <= |labels| && Force.NoDial(labels, lo, hi)
    requires Subscribers.Inv(states[lo].subs) && forall i :: lo <= i < hi ==> Shutdown.Coupled(states[i])
    ensures SignalsIn(labels, lo, hi) <= |states[hi].subs.subs|
  {
    forall i | lo <= i < hi
      ensures Pays(states[i], labels[i], states[i + 1])
    {
      PaysAt(states, labels, i);
    }
    SignalsAddUp(states, labels, lo, hi);
    DueAtMostAll(states[lo], false);
  }

  // ------------------------------------------------------------------ the ping the keepalive loop awaits

  /** How many of its own steps a ping is away from its return. */
  function PingRank(pc: Pings.Pc): nat {
    match pc
    case Start => 6
    case Register => 5
    case Sending => 4
    case PollWaiter => 3
    case PollTimer => 2
    case ForgetUnsent => 1
    case ForgetLate => 1
    case Returned(_) => 0
    case Dropped => 0
  }

  /** What is left of the ping being awaited, or of the one about to be sent. */
  function AwaitedRank(pc: KeeperPc, pings: Pings.State): nat {
    if pc.Pinging? && pc.p in pings.pings then PingRank(pings.pings[pc.p].pc)
    else if pc.Recheck? then 6
    else 0
  }

  predicate IsAwaited(pc: KeeperPc, l: Label) {
    l.PingStep? && !l.ping.HandlePong? && !l.ping.Clear? && pc.Pinging? && l.ping.p == pc.p
  }

  /** A poll of the awaited ping that finds neither its pong nor its deadline. */
  predicate IsEmptyPoll(pc: KeeperPc, l: Label) {
    IsAwaited(pc, l) && l.ping.PollDelay? && !l.ping.elapsed
  }

  lemma PingStepRank(s: Pings.State, l: Pings.Label, p: Pings.PingId)
    requires Pings.Enabled(s, l) && p in s.pings
    ensures p in Pings.Step(s, l).pings
    ensures !l.HandlePong? && !l.Clear? && l.p == p ==>
              1 + PingRank(Pings.Step(s, l).pings[p].pc) <= PingRank(s.pings[p].pc) + 2 * One(l.PollDelay? && !l.elapsed)
    ensures l.HandlePong? || l.Clear? || l.p != p ==> Pings.Step(s, l).pings[p].pc == s.pings[p].pc
  {
  }

  lemma KeepAwaits(cfg: Config, now: nat, sh: Shared, k: Keeper, pings: Pings.State, l: KeeperLabel)
    requires KeeperGuard(k.pc, l, now, pings) && sh.closed
    ensures var pc := AfterKeep(cfg, now, sh, k, pings, l).pc;
            && !pc.Recheck?
            && (pc.Pinging? ==> l.RecheckInterval? && k.pc.Recheck? && sh.millis != 0 && pc.p == l.p)
  {
  }

  lemma StepTowardsReturn(s: State, l: Label)
    requires Enabled(s, l) && s.shared.closed && (s.keeper.pc.Pinging? ==> s.keeper.pc.p in s.pings.pings)
    ensures Step(s, l).keeper.pc.Pinging? ==> Step(s, l).keeper.pc.p in Step(s, l).pings.pings
    ensures One(IsAwaited(s.keeper.pc, l)) + AwaitedRank(Step(s, l).keeper.pc, Step(s, l).pings)
            <= AwaitedRank(s.keeper.pc, s.pings) + 2 * One(IsEmptyPoll(s.keeper.pc, l))
  {
    var p := PingLabel(s.reader.pc, s.shared, l);
    if l.Keep? {
      KeepAwaits(s.cfg, s.now, s.shared, s.keeper, s.pings, l.k);
    } else if p.Some? && s.keeper.pc.Pinging? {
      PingStepRank(s.pings, p.value, s.keeper.pc.p);
    }
  }

  function AwaitedSteps(states: seq<State>, labels: seq<Label>, n: nat): nat
    requires n <= |labels| < |states|
  {
    if n == 0 then 0
    else AwaitedSteps(states, labels, n - 1) + One(IsAwaited(states[n - 1].keeper.pc, labels[n - 1]))
  }

  function EmptyPolls(states: seq<State>, labels: seq<Label>, n: nat): nat
    requires n <= |labels| < |states|
  {
    if n == 0 then 0
    else EmptyPolls(states, labels, n - 1) + One(IsEmptyPoll(states[n - 1].keeper.pc, labels[n - 1]))
  }

  /** After `closed` is set, the pings the keepalive loop awaits take at most six more steps in all, and
      two more for each poll that finds neither the pong nor the deadline. */
  lemma {:induction false} AwaitedPingRunsOut(states: seq<State>, labels: seq<Label>, n: nat)
    requires IsSegment(states, labels) && n <= |labels| && Shutdown.Inv(states[0]) && states[0].shared.closed
    requires states[0].keeper.pc.Pinging? ==> states[0].keeper.pc.p in states[0].pings.pings
    ensures Shutdown.Inv(states[n]) && states[n].shared.closed
    ensures states[n].keeper.pc.Pinging? ==> states[n].keeper.pc.p in states[n].pings.pings
    ensures AwaitedSteps(states, labels, n) + AwaitedRank(states[n].keeper.pc, states[n].pings)
            <= AwaitedRank(states[0].keeper.pc, states[0].pings) + 2 * EmptyPolls(states, labels, n)
  {
    if n > 0 {
      AwaitedPingRunsOut(states, labels, n - 1);
      FollowsAt(states, labels, n - 1);
      Shutdown.StepKeepsInv(states[n - 1], labels[n - 1]);
      Shutdown.SharedMonotone(states[n - 1].shared, labels[n - 1]);
      StepTowardsReturn(states[n - 1], labels[n - 1]);
    }
  }

  lemma AwaitedPingBound(states: seq<State>, labels: seq<Label>)
    requires IsSegment(states, labels) && Shutdown.Inv(states[0]) && states[0].shared.closed
    requires states[0].keeper.pc.Pinging? ==> states[0].keeper.pc.p in states[0].pings.pings
    ensures AwaitedSteps(states, labels, |labels|) <= 6 + 2 * EmptyPolls(states, labels, |labels|)
  {
    AwaitedPingRunsOut(states, labels, |labels|);
  }

  // ------------------------------------------------------------------ the read loop is never stuck

  /** A step of whoever holds a lock the read loop needs: a registration in progress, or a receiver
      between finding its queue empty and reading the flag. */
  predicate FreesLock(h: Handlers.Label) {
    h.CloseReplaced? || h.SignalReplaced? || h.LoadClosed?
  }

  lemma LookupCanStep(h: Handlers.State) returns (l: Handlers.Label)
    requires Handlers.Inv(h) && h.reader.Looking?
    ensures Handlers.Enabled(h, l) && !l.Arrive? && (Handlers.IsReaderLabel(l) || FreesLock(l))
  {
    match h.lock
    case Free => l := Handlers.Lookup;
    case Retiring(_) => l := Handlers.CloseReplaced;
    case Announcing(c) =>
      assert Handlers.ChanInv(h, c);
      l := Handlers.SignalReplaced;
  }

  lemma PushCanStep(h: Handlers.State) returns (l: Handlers.Label)
    requires Handlers.Inv(h) && h.reader.Found?
    ensures Handlers.Enabled(h, l) && !l.Arrive? && (Handlers.IsReaderLabel(l) || FreesLock(l))
  {
    assert Handlers.ChanInv(h, h.reader.c);
    l := if h.chans[h.reader.c].rx.EmptyLocked? then Handlers.LoadClosed(h.reader.c) else Handlers.PushItem;
  }

  /** Inside a handler registry the read loop, or the holder of the lock it needs, can step. */
  lemma RegistryCanStep(h: Handlers.State) returns (l: Handlers.Label)
    requires Handlers.Inv(h) && !h.reader.Idle?
    ensures Handlers.Enabled(h, l) && !l.Arrive? && (Handlers.IsReaderLabel(l) || FreesLock(l))
  {
    match h.reader
    case Looking(_, _) => l := LookupCanStep(h);
    case Found(_, _) => l := PushCanStep(h);
    case Pushed(c) =>
      assert Handlers.ChanInv(h, c);
      l := Handlers.SignalItem;
    case Unhandled(_) => l := Handlers.Reject(true);
  }

  lemma NotificationCanStep(s: Subscribers.State) returns (l: Subscribers.Label)
    requires Subscribers.Inv(s) && !s.phase.Quiet?
    ensures Subscribers.Enabled(s, l) && Subscribers.IsReaderLabel(l) && !l.Swap?
  {
    if s.phase.Swapped? {
      l := Subscribers.LockSubscribers;
    } else if s.phase.remaining == {} {
      l := Subscribers.UnlockSubscribers;
    } else {
      var k :| k in s.phase.remaining;
      l := Subscribers.Signal(k);
    }
  }

  /** Its next step anywhere else. */
  function OwnLabel(cfg: Config, r: Reader): ReaderLabel {
    match r.pc
    case PollRecv => RecvPending
    case PollWake => ReadWake
    case Parked => Unpark
    case Woken => CheckAfterWake
    case Dispatch(_) => Handle
    case AfterRead(_) => Decide
    case ClearAndExit => ClearOnExit
    case Courtesy => CourtesyDone
    case ClearPongs => ClearOnRedial
    case StartBackoff => BeginBackoff(0, Backoff.Jittered(cfg.backoff, r.attempt, 0))
    case PollTimer(_) => TimerPending
    case PollBackoffWake(_) => ReadBackoffWake
    case ParkedInBackoff(_) => UnparkBackoff
    case WokenInBackoff => CheckAfterBackoffWake
    case CheckClosed => CheckBeforeDial
    case StartDial => BeginDial
    case Dialing => DialFailed
    case _ => SwapIn
  }

  lemma OwnLabelEnabled(s: State)
    requires Shutdown.Coupled(s) && !s.reader.pc.Exited?
    requires !s.reader.pc.InCall? && !s.reader.pc.InSend? && !s.reader.pc.NotifySubscribers?
    ensures Enabled(s, Read(OwnLabel(s.cfg, s.reader)))
  {
  }

  /** Whose step it is that lets the read loop go on. */
  predicate IsReadersTurn(l: Label) {
    l.Read? || ((l.CallTaskStep? || l.NoteTaskStep?) && FreesLock(l.h))
  }

  lemma CallCanStep(s: State) returns (l: Label)
    requires s.reader.pc.InCall? && Handlers.Inv(s.calls) && !s.calls.reader.Idle?
    ensures Enabled(s, l) && IsReadersTurn(l)
  {
    var h := RegistryCanStep(s.calls);
    l := if Handlers.IsReaderLabel(h) then Read(CallStep(h)) else CallTaskStep(h);
  }

  lemma SendCanStep(s: State) returns (l: Label)
    requires s.reader.pc.InSend? && Handlers.Inv(s.notes) && !s.notes.reader.Idle?
    ensures Enabled(s, l) && IsReadersTurn(l)
  {
    var h := RegistryCanStep(s.notes);
    l := if Handlers.IsReaderLabel(h) then Read(SendStep(h)) else NoteTaskStep(h);
  }

  lemma NotifyCanStep(s: State) returns (l: Label)
    requires s.reader.pc.NotifySubscribers? && Subscribers.Inv(s.subs) && !s.subs.phase.Quiet?
    ensures Enabled(s, l) && IsReadersTurn(l) && l.Read? && l.r.NotifyStep?
  {
    var n := NotificationCanStep(s.subs);
    l := Read(NotifyStep(n));
  }

  /** Until it has exited, the read loop can step, or the holder of the lock it needs can. */
  lemma ReaderCanStep(s: State) returns (l: Label)
    requires Shutdown.Coupled(s) && !s.reader.pc.Exited?
    requires Handlers.Inv(s.calls) && Handlers.Inv(s.notes) && Subscribers.Inv(s.subs)
    ensures Enabled(s, l) && IsReadersTurn(l)
  {
    if s.reader.pc.InCall? {
      l := CallCanStep(s);
    } else if s.reader.pc.InSend? {
      l := SendCanStep(s);
    } else if s.reader.pc.NotifySubscribers? {
      l := NotifyCanStep(s);
    } else {
      OwnLabelEnabled(s);
      l := Read(OwnLabel(s.cfg, s.reader));
    }
  }

  // ------------------------------------------------------------------ nobody else is stuck either

  /** The next step of an unfinished ping; a wait polls. */
  function PingLabelOf(pc: Pings.Pc, p: Pings.PingId, closed: bool): Pings.Label {
    match pc
    case Start => Pings.CheckClosed(p, closed)
    case Register => Pings.Insert(p)
    case Sending => Pings.Sent(p, false)
    case ForgetUnsent => Pings.ForgetAfterSend(p)
    case PollWaiter => Pings.PollSlot(p)
    case PollTimer => Pings.PollDelay(p, false)
    case _ => Pings.ForgetAfterTimeout(p)
  }

  lemma PingCanStep(s: State, p: Pings.PingId)
    requires p in s.pings.pings && !s.pings.pings[p].pc.Returned? && !s.pings.pings[p].pc.Dropped?
    ensures Enabled(s, PingStep(PingLabelOf(s.pings.pings[p].pc, p, s.shared.closed)))
  {
  }

  function CallLabelOf(pc: Requests.Pc, c: Requests.CallId, closed: bool): Requests.Label {
    match pc
    case Start => Requests.CheckClosed(c, closed)
    case Encode => Requests.Encoded(c, true)
    case Register => Requests.Insert(c)
    case Sending => Requests.Sent(c, false)
    case ForgetUnsent => Requests.ForgetAfterSend(c)
    case PollWaiter => Requests.PollSlot(c)
    case PollTimer => Requests.PollDelay(c, false)
    case Deliver(_) => Requests.Finish(c, true)
    case _ => Requests.ForgetAfterTimeout(c)
  }

  lemma CallerCanStep(s: State, c: Requests.CallId)
    requires c in s.requests.calls && !s.requests.calls[c].pc.Returned? && !s.requests.calls[c].pc.Dropped?
    ensures Enabled(s, RequestStep(CallLabelOf(s.requests.calls[c].pc, c, s.shared.closed)))
  {
  }

  lemma FreshId(ids: set<nat>) returns (id: nat)
    ensures id !in ids
  {
    id := 0;
    var rest := ids;
    while rest != {}
      invariant rest <= ids && forall x :: x in ids && x !in rest ==> x < id
    {
      var x :| x in rest;
      rest := rest - {x};
      if id <= x {
        id := x + 1;
      }
    }
  }

  /** The keepalive loop's own next step; a wait polls, and an awaited ping that has returned is done. */
  function KeepLabelOf(pc: KeeperPc, unused: Pings.PingId): KeeperLabel {
    match pc
    case Load => LoadInterval
    case PollOff => ReadChangedOff
    case ParkedOff => UnparkOff
    case PollChanged(_, _) => ReadChanged
    case PollInterval(_, _) => ReadTimer(false)
    case ParkedOn(_, _) => UnparkOn
    case CheckBeforePing(_) => CheckAlive
    case Recheck(_) => RecheckInterval(unused)
    case Pinging(_, _, _) => PingDone
    case ForceCheck => CheckForce
    case ForceNotify => NotifyForce
    case _ => AtHead
  }

  lemma KeepLabelEnabled(s: State, unused: Pings.PingId)
    requires !s.keeper.pc.Stopped? && unused !in s.pings.pings
    requires s.keeper.pc.Pinging? ==> s.keeper.pc.p in s.pings.pings && s.pings.pings[s.keeper.pc.p].pc.Returned?
    ensures Enabled(s, Keep(KeepLabelOf(s.keeper.pc, unused)))
  {
  }

  /** Until it has stopped, the keepalive loop or the ping it awaits can step. */
  lemma KeeperCanStep(s: State) returns (l: Label)
    requires DeadPeer.PingingInv(s.now, s.keeper, s.pings) && !s.keeper.pc.Stopped?
    ensures Enabled(s, l) && (l.Keep? || IsAwaited(s.keeper.pc, l))
  {
    var pc := s.keeper.pc;
    if pc.Pinging? && !s.pings.pings[pc.p].pc.Returned? {
      PingCanStep(s, pc.p);
      l := PingStep(PingLabelOf(s.pings.pings[pc.p].pc, pc.p, s.shared.closed));
    } else {
      var unused := FreshId(s.pings.pings.Keys);
      KeepLabelEnabled(s, unused);
      l := Keep(KeepLabelOf(pc, unused));
    }
  }

  // ------------------------------------------------------------------ the engine's locks

  /** Whoever holds a registry's lock or one of its queue locks in the middle of something can go on. */
  lemma RegistryLocksMove(h: Handlers.State)
    requires Handlers.Inv(h)
    ensures h.lock.Retiring? ==> Handlers.Enabled(h, Handlers.CloseReplaced)
    ensures h.lock.Announcing? ==> Handlers.Enabled(h, Handlers.SignalReplaced)
    ensures forall c :: c in h.chans && h.chans[c].rx.EmptyLocked? ==> Handlers.Enabled(h, Handlers.LoadClosed(c))
  {
    if h.lock.Announcing? {
      assert Handlers.ChanInv(h, h.lock.c);
    }
    forall c | c in h.chans && h.chans[c].rx.EmptyLocked?
      ensures Handlers.Enabled(h, Handlers.LoadClosed(c))
    {
      assert Handlers.ChanInv(h, c);
    }
  }

  lemma CallTaskEnabled(s: State, h: Handlers.Label)
    requires Handlers.Enabled(s.calls, h) && !Handlers.IsReaderLabel(h)
    ensures Enabled(s, CallTaskStep(h))
  {
  }

  lemma CallLocksMove(s: State)
    requires Handlers.Inv(s.calls)
    ensures s.calls.lock.Retiring? ==> Enabled(s, CallTaskStep(Handlers.CloseReplaced))
    ensures s.calls.lock.Announcing? ==> Enabled(s, CallTaskStep(Handlers.SignalReplaced))
    ensures forall c :: c in s.calls.chans && s.calls.chans[c].rx.EmptyLocked? ==>
              Enabled(s, CallTaskStep(Handlers.LoadClosed(c)))
  {
    RegistryLocksMove(s.calls);
    forall h | FreesLock(h) && Handlers.Enabled(s.calls, h)
      ensures Enabled(s, CallTaskStep(h))
    {
      CallTaskEnabled(s, h);
    }
  }

  lemma NoteTaskEnabled(s: State, h: Handlers.Label)
    requires Handlers.Enabled(s.notes, h) && !Handlers.IsReaderLabel(h)
    ensures Enabled(s, NoteTaskStep(h))
  {
  }

  lemma NoteLocksMove(s: State)
    requires Handlers.Inv(s.notes)
    ensures s.notes.lock.Retiring? ==> Enabled(s, NoteTaskStep(Handlers.CloseReplaced))
    ensures s.notes.lock.Announcing? ==> Enabled(s, NoteTaskStep(Handlers.SignalReplaced))
    ensures forall c :: c in s.notes.chans && s.notes.chans[c].rx.EmptyLocked? ==>
              Enabled(s, NoteTaskStep(Handlers.LoadClosed(c)))
  {
    RegistryLocksMove(s.notes);
    forall h | FreesLock(h) && Handlers.Enabled(s.notes, h)
      ensures Enabled(s, NoteTaskStep(h))
    {
      NoteTaskEnabled(s, h);
    }
  }
}
