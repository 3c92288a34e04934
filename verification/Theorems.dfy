/** The engine's invariant over every run, and what follows from it for a user of the client. */
module Theorems {
  import opened Prelude
  import opened Engine
  import opened RedialRate
  import Keepalive
  import Requests
  import Pings
  import BigEndian
  import Handlers
  import Subscribers
  import Shutdown
  import DeadPeer
  import Detection
  import RedialProofs
  import SinkSwap
  import Force
  import Progress
  import Wire

  ghost predicate KeeperInv(s: State) {
    && DeadPeer.IntervalInv(s.shared, s.keeper.pc)
    && DeadPeer.MissInv(s.cfg, s.keeper)
    && DeadPeer.PingingInv(s.now, s.keeper, s.pings)
  }

  ghost predicate TablesInv(s: State) {
    && Requests.Inv(s.requests)
    && Pings.Inv(s.pings)
    && Subscribers.Inv(s.subs)
  }

  /** The ping table has been cleared for the redial in progress. */
  predicate PastClear(pc: ReaderPc) {
    || pc.StartBackoff? || pc.PollTimer? || pc.PollBackoffWake? || pc.ParkedInBackoff? || pc.WokenInBackoff?
    || pc.CheckClosed? || pc.StartDial? || pc.Dialing? || pc.SwapSink?
  }

  /** Every redial was preceded by a clearing of the ping table of its own. */
  ghost predicate ClearInv(pc: ReaderPc, redials: nat, epoch: nat) {
    redials + One(PastClear(pc)) <= epoch
  }

  ghost predicate RegistriesInv(s: State) {
    && Handlers.Inv(s.calls) && s.calls.answers
    && Handlers.Inv(s.notes) && !s.notes.answers
  }

  ghost predicate Inv(s: State) {
    && Shutdown.Inv(s)
    && KeeperInv(s)
    && RedialProofs.SegmentInv(s.cfg, s.now, s.shared.wake, s.reader)
    && TablesInv(s)
    && ClearInv(s.reader.pc, s.subs.redials, s.pings.epoch)
    && RegistriesInv(s)
  }

  lemma InitInv(s: State)
    requires Init(s)
    ensures Inv(s)
  {
    assert s.keeper.log == [];
    assert s.reader.segment.rounds == [];
    Handlers.InitInv(true);
    Handlers.InitInv(false);
  }

  lemma StepKeepsKeeperInv(s: State, l: Label)
    requires KeeperInv(s) && Enabled(s, l)
    ensures KeeperInv(Step(s, l))
  {
    DeadPeer.StepKeepsIntervalInv(s.cfg, s.now, s.shared, s.keeper, s.pings, l);
    DeadPeer.StepKeepsMissInv(s.cfg, s.now, s.shared, s.keeper, s.pings, l);
    DeadPeer.StepKeepsPingingInv(s, l);
  }

  lemma StepKeepsTablesInv(s: State, l: Label)
    requires TablesInv(s) && Enabled(s, l)
    ensures Requests.Inv(NewRequests(s, l)) && Pings.Inv(NewPings(s, l)) && Subscribers.Inv(NewSubs(s, l))
  {
    if RequestLabel(s.reader.pc, l).Some? {
      Requests.StepKeepsInv(s.requests, RequestLabel(s.reader.pc, l).value);
    }
    if PingLabel(s.reader.pc, s.shared, l).Some? {
      Pings.StepKeepsInv(s.pings, PingLabel(s.reader.pc, s.shared, l).value);
    }
    if SubLabel(l).Some? {
      Subscribers.StepKeepsInv(s.subs, SubLabel(l).value);
    }
  }

  lemma PastClearAfter(cfg: Config, now: nat, sh: Shared, r: Reader, l: ReaderLabel, settled: bool)
    requires ReaderGuard(r.pc, l, now)
    ensures PastClear(NextPc(cfg, now, sh, r, l, settled)) ==> PastClear(r.pc) || l.ClearOnRedial?
    ensures l.SwapIn? ==> PastClear(r.pc) && !PastClear(NextPc(cfg, now, sh, r, l, settled))
    ensures l.ClearOnRedial? ==> !PastClear(r.pc)
  {
  }

  lemma EpochAfter(s: Pings.State, l: Pings.Label)
    requires Pings.Enabled(s, l)
    ensures Pings.Step(s, l).epoch == s.epoch + One(l.Clear?)
  {
  }

  lemma RedialsAfter(s: Subscribers.State, l: Subscribers.Label)
    requires Subscribers.Enabled(s, l)
    ensures Subscribers.Step(s, l).redials == s.redials + One(l.Swap?)
  {
  }

  lemma StepKeepsClearInv(s: State, l: Label)
    requires Enabled(s, l) && ClearInv(s.reader.pc, s.subs.redials, s.pings.epoch)
    ensures ClearInv(Step(s, l).reader.pc, NewSubs(s, l).redials, NewPings(s, l).epoch)
  {
    if l.Read? {
      PastClearAfter(s.cfg, s.now, s.shared, s.reader, l.r, Settled(s, l));
    }
    if PingLabel(s.reader.pc, s.shared, l).Some? {
      EpochAfter(s.pings, PingLabel(s.reader.pc, s.shared, l).value);
    }
    if SubLabel(l).Some? {
      RedialsAfter(s.subs, SubLabel(l).value);
    }
  }

  lemma StepKeepsRegistriesInv(s: State, l: Label)
    requires RegistriesInv(s) && Enabled(s, l)
    ensures Handlers.Inv(NewCalls(s, l)) && NewCalls(s, l).answers
    ensures Handlers.Inv(NewNotes(s, l)) && !NewNotes(s, l).answers
  {
    if CallLabel(s.reader.pc, l).Some? {
      Handlers.StepKeepsInv(s.calls, CallLabel(s.reader.pc, l).value);
    }
    if NoteLabel(s.reader.pc, l).Some? {
      Handlers.StepKeepsInv(s.notes, NoteLabel(s.reader.pc, l).value);
    }
  }

  /** Every step of every actor keeps the invariant. */
  lemma StepKeepsInv(s: State, l: Label)
    requires Inv(s) && Enabled(s, l)
    ensures Inv(Step(s, l))
  {
    Shutdown.StepKeepsInv(s, l);
    StepKeepsKeeperInv(s, l);
    RedialProofs.StepKeepsSegmentInv(s, l);
    StepKeepsTablesInv(s, l);
    StepKeepsClearInv(s, l);
    StepKeepsRegistriesInv(s, l);
  }

  lemma InvAfter(states: seq<State>, labels: seq<Label>, i: nat)
    requires IsSegment(states, labels) && i < |labels| && Inv(states[i])
    ensures Inv(states[i + 1])
  {
    FollowsAt(states, labels, i);
    StepKeepsInv(states[i], labels[i]);
  }

  lemma {:induction false} RunKeepsInv(states: seq<State>, labels: seq<Label>, i: nat)
    requires IsRun(states, labels) && i < |states|
    ensures Inv(states[i])
  {
    if i == 0 {
      InitInv(states[0]);
    } else {
      RunKeepsInv(states, labels, i - 1);
      InvAfter(states, labels, i - 1);
    }
  }

  lemma ShutdownInvAt(states: seq<State>, labels: seq<Label>, i: nat)
    requires IsRun(states, labels) && i < |states|
    ensures Shutdown.Inv(states[i]) && (Shutdown.ChangeIssued(states[i].shared) ==> states[i].shared.closed)
  {
    RunKeepsInv(states, labels, i);
  }

  lemma PingingInvAt(states: seq<State>, labels: seq<Label>, i: nat)
    requires IsRun(states, labels) && i < |states|
    ensures DeadPeer.PingingInv(states[i].now, states[i].keeper, states[i].pings)
  {
    RunKeepsInv(states, labels, i);
  }

  lemma SegmentInvAt(states: seq<State>, labels: seq<Label>, i: nat)
    requires IsRun(states, labels) && i < |states|
    ensures var s := states[i]; RedialProofs.SegmentInv(s.cfg, s.now, s.shared.wake, s.reader)
  {
    RunKeepsInv(states, labels, i);
  }

  lemma MissInvAt(states: seq<State>, labels: seq<Label>, i: nat)
    requires IsRun(states, labels) && i < |states|
    ensures DeadPeer.MissInv(states[i].cfg, states[i].keeper)
  {
    RunKeepsInv(states, labels, i);
  }

  // ------------------------------------------------------------------ theorems over every run

  /** Suffix of a run from state `i`. */
  lemma SuffixIsSegment(states: seq<State>, labels: seq<Label>, i: nat)
    requires IsSegment(states, labels) && i < |states|
    ensures IsSegment(states[i..], labels[i..])
  {
    forall j | 0 <= j < |labels[i..]|
      ensures Follows(states[i..][j], labels[i..][j], states[i..][j + 1])
    {
      FollowsAt(states, labels, i + j);
      assert states[i..][j] == states[i + j] && labels[i..][j] == labels[i + j];
      assert states[i..][j + 1] == states[i + j + 1];
    }
  }

  /**
   Shutdown is final in every run: after any state in which the flag is set, at most one dial starts,
   and only if its closed check had already passed.
   */
  lemma ShutdownIsFinal(states: seq<State>, labels: seq<Label>, i: nat)
    requires IsRun(states, labels) && i < |states| && states[i].shared.closed
    ensures Shutdown.DialsStarted(labels[i..]) <= One(states[i].reader.pc.StartDial?)
  {
    RunKeepsInv(states, labels, i);
    SuffixIsSegment(states, labels, i);
    Shutdown.AtMostOneDialAfterClosed(states[i..], labels[i..]);
  }

  /**
   Which sink is closed, in every run: once `disconnect` is done at step `i`, the sink in place is closed
   exactly as long as none was swapped in since. At most one can be, and only if a dial was under way at
   step `i`.
   */
  lemma SinkClosedIffNotSwapped(states: seq<State>, labels: seq<Label>, i: nat, n: nat)
    requires IsRun(states, labels) && i < n <= |labels| && labels[i] == Client(DisconnectDone)
    ensures SinkSwap.SinkIsClosed(states[n]) <==> SinkSwap.Swaps(labels, i + 1, n) == 0
    ensures SinkSwap.Swaps(labels, i + 1, n) <= One(Progress.Dials(states[i].reader.pc, true))
  {
    ShutdownInvAt(states, labels, i);
    SinkSwap.RunKeepsSinksInv(states, labels, i);
    SinkSwap.ClosedIffNotSwapped(states, labels, i, n);
    SinkSwap.DoneClosesAt(states, labels, i);
    SinkSwap.SwapsAfterClosed(states, labels, i + 1, n);
  }

  /** And a run in which it happens: for every configuration with a reconnector, a client can be told that
      `disconnect` is done and end up with an open sink. */
  lemma OpenSinkAfterDisconnect(s: State) returns (states: seq<State>, labels: seq<Label>)
    requires Init(s) && s.cfg.reconnects
    ensures IsRun(states, labels) && states[0] == s
    ensures Client(DisconnectDone) in labels && !SinkSwap.SinkIsClosed(states[|labels|])
  {
    var before, ls, t := SinkSwap.DisconnectWhileDialling(s);
    ShutdownInvAt(before, ls, |ls|);
    SinkSwap.RunKeepsSinksInv(before, ls, |ls|);
    var after, ls' := SinkSwap.DialLeavesSinkOpen(t);
    SinkSwap.Join(s, before, ls, t, after, ls', after[|ls'|]);
    states, labels := before + after[1..], ls + ls';
    assert ls'[0] in labels;
  }

  /** After the flag is set, every call and ping begun since is refused: none registers or writes. */
  lemma NothingNewAfterClosed(states: seq<State>, labels: seq<Label>, i: nat, n: nat, c: Requests.CallId, p: Pings.PingId)
    requires IsRun(states, labels) && i <= n <= |labels| && states[i].shared.closed
    requires c !in states[i].requests.calls && p !in states[i].pings.pings
    ensures Shutdown.CallRefused(states[n].requests, c) && Shutdown.PingRefused(states[n].pings, p)
  {
    Shutdown.NewcomersRefused(states, labels, i, n, c, p);
  }

  /**
   No lost shutdown in any run: once `disconnect` has notified the read loop, the read loop takes a bounded
   number of further steps, counting every one of them: per inbound event it still receives, and one per
   subscriber. It is never parked without a wake, and until it has exited it can step, or the holder of
   the lock it needs can.
   */
  lemma ShutdownReachesReader(states: seq<State>, labels: seq<Label>, i: nat) returns (next: Label)
    requires IsRun(states, labels) && i < |states| && Shutdown.WakeIssued(states[i].shared)
    ensures var last := states[|labels|];
            && Progress.ReadSteps(labels[i..])
               <= Shutdown.RANK_MAX + (Shutdown.RANK_PER_EVENT + 1) * Shutdown.EventsReceived(labels[i..])
                  + |last.subs.subs|
            && (last.reader.pc.Parked? || last.reader.pc.ParkedInBackoff? ==> last.shared.wake)
            && (!last.reader.pc.Exited? ==> Enabled(last, next) && Progress.IsReadersTurn(next))
  {
    var from, rest, last := states[i..], labels[i..], states[|labels|];
    RunKeepsInv(states, labels, i);
    RunKeepsInv(states, labels, |labels|);
    SuffixIsSegment(states, labels, i);
    assert from[|rest|] == last && from[0] == states[i];
    Shutdown.ReaderRunsOut(from, rest);
    Shutdown.RankAtMostMax(states[i]);
    Progress.SignalsRunOut(from, rest);
    Progress.DueAtMostAll(states[i], true);
    Progress.ReadStepsSplit(rest);
    next := ReaderGoesOn(states, labels, |labels|);
  }

  lemma KeeperStops(states: seq<State>, labels: seq<Label>, i: nat)
    requires IsRun(states, labels) && i < |states| && Shutdown.ChangeIssued(states[i].shared)
    ensures Shutdown.KeeperSteps(labels[i..]) <= 4
    ensures var last := states[|labels|];
            last.keeper.pc.ParkedOff? || last.keeper.pc.ParkedOn? ==> last.shared.changed
  {
    ShutdownInvAt(states, labels, i);
    SuffixIsSegment(states, labels, i);
    assert states[i..][|labels| - i] == states[|labels|];
    Shutdown.KeeperRunsOut(states[i..], labels[i..]);
  }

  lemma AwaitedPingReturns(states: seq<State>, labels: seq<Label>, i: nat)
    requires IsRun(states, labels) && i < |states| && states[i].shared.closed
    ensures Progress.AwaitedSteps(states[i..], labels[i..], |labels| - i)
            <= 6 + 2 * Progress.EmptyPolls(states[i..], labels[i..], |labels| - i)
  {
    var from, rest := states[i..], labels[i..];
    ShutdownInvAt(states, labels, i);
    PingingInvAt(states, labels, i);
    SuffixIsSegment(states, labels, i);
    assert from[0] == states[i] && |rest| == |labels| - i;
    Progress.AwaitedPingBound(from, rest);
  }

  /** The same for the keepalive loop: at most four more steps of its own, and the pings it waits for
      return within six more steps of theirs, two more for each poll that finds neither pong nor
      deadline. Until it has stopped, the loop or the ping it awaits can step. */
  lemma ShutdownReachesKeeper(states: seq<State>, labels: seq<Label>, i: nat) returns (next: Label)
    requires IsRun(states, labels) && i < |states| && Shutdown.ChangeIssued(states[i].shared)
    ensures Shutdown.KeeperSteps(labels[i..]) <= 4
    ensures Progress.AwaitedSteps(states[i..], labels[i..], |labels| - i)
            <= 6 + 2 * Progress.EmptyPolls(states[i..], labels[i..], |labels| - i)
    ensures var last := states[|labels|];
            && (last.keeper.pc.ParkedOff? || last.keeper.pc.ParkedOn? ==> last.shared.changed)
            && (!last.keeper.pc.Stopped? ==>
                  Enabled(last, next) && (next.Keep? || Progress.IsAwaited(last.keeper.pc, next)))
  {
    ShutdownInvAt(states, labels, i);
    KeeperStops(states, labels, i);
    AwaitedPingReturns(states, labels, i);
    next := KeeperGoesOn(states, labels, |labels|);
  }

  /** In every reachable state, until it has stopped, the keepalive loop or the ping it awaits can step. */
  lemma KeeperGoesOn(states: seq<State>, labels: seq<Label>, n: nat) returns (next: Label)
    requires IsRun(states, labels) && n < |states|
    ensures var s := states[n];
            !s.keeper.pc.Stopped? ==> Enabled(s, next) && (next.Keep? || Progress.IsAwaited(s.keeper.pc, next))
  {
    PingingInvAt(states, labels, n);
    if states[n].keeper.pc.Stopped? {
      next := Tick(0);
    } else {
      next := Progress.KeeperCanStep(states[n]);
    }
  }

  lemma CoupledBetween(states: seq<State>, labels: seq<Label>, lo: nat, hi: nat)
    requires IsRun(states, labels) && lo <= hi < |states|
    ensures Subscribers.Inv(states[lo].subs)
    ensures forall i :: lo <= i < hi ==> Shutdown.Coupled(states[i])
  {
    RunKeepsInv(states, labels, lo);
    forall i | lo <= i < hi
      ensures Shutdown.Coupled(states[i])
    {
      ShutdownInvAt(states, labels, i);
    }
  }

  /** The read loop's steps before a dial: the counted ones, the events received and at most one signal
      per subscriber. */
  lemma AllReadSteps(states: seq<State>, labels: seq<Label>, lo: nat, hi: nat)
    requires IsRun(states, labels) && lo <= hi <= |labels| && Force.NoDial(labels, lo, hi)
    ensures Progress.ReadStepsIn(labels, lo, hi)
            <= Force.Counted(labels, lo, hi) + Force.Events(labels, lo, hi) + |states[hi].subs.subs|
    ensures Force.Allowance(states, labels, lo, hi)
         == Force.RANK_PER_EVENT * Force.Events(labels, lo, hi)
            + Force.RANK_PER_EMPTY_POLL * Force.EmptyPolls(states, labels, lo, hi)
  {
    CoupledBetween(states, labels, lo, hi);
    Progress.SignalsBeforeDial(states, labels, lo, hi);
    Progress.ReadStepsInSplit(labels, lo, hi);
    Force.AllowanceSplit(states, labels, lo, hi);
  }

  lemma ForceIsAlive(states: seq<State>, labels: seq<Label>, i: nat, n: nat)
    requires IsRun(states, labels) && i < n <= |labels| && states[0].cfg.reconnects
    requires NotifiesWake(labels[i]) && Force.NoDial(labels, i + 1, n)
    ensures Force.Forceful(states[n])
    ensures Force.Counted(labels, i + 1, n) + Force.RankOf(states[n])
            <= Force.RANK_MAX + Force.Allowance(states, labels, i + 1, n)
  {
    ShutdownInvAt(states, labels, i + 1);
    ConfigIsFixed(states, labels, i + 1);
    FollowsAt(states, labels, i);
    Force.NotifyLatches(states[i].shared, labels[i]);
    Force.ForceRunsOut(states, labels, i + 1, n);
    Force.RankAtMostMax(states[i + 1]);
  }

  /**
   Every forced redial happens. If a wake was notified at step `i` and no dial has begun since, the force
   is still latched or being acted on, and the read loop has taken a bounded number of steps, counting
   every one of them: per inbound event, per backoff poll that found nothing, and one per subscriber. It
   is never parked without the wake, has exited only if the client was closed, and until then it can
   step, or the holder of the lock it needs can.
   */
  lemma ForceReachesDial(states: seq<State>, labels: seq<Label>, i: nat, n: nat) returns (next: Label)
    requires IsRun(states, labels) && i < n <= |labels| && states[0].cfg.reconnects
    requires NotifiesWake(labels[i]) && Force.NoDial(labels, i + 1, n)
    ensures var s := states[n];
            && Force.Alive(s.shared, s.reader.pc)
            && Progress.ReadStepsIn(labels, i + 1, n) + Force.RankOf(s)
               <= Force.RANK_MAX + (Force.RANK_PER_EVENT + 1) * Force.Events(labels, i + 1, n)
                  + Force.RANK_PER_EMPTY_POLL * Force.EmptyPolls(states, labels, i + 1, n) + |s.subs.subs|
            && (s.reader.pc.Parked? ==> s.shared.wake)
            && (s.reader.pc.Exited? ==> s.shared.closed)
            && (!s.reader.pc.Exited? ==> Enabled(s, next) && Progress.IsReadersTurn(next))
  {
    ForceIsAlive(states, labels, i, n);
    Force.ForcefulMeans(states[n]);
    AllReadSteps(states, labels, i + 1, n);
    next := ReaderGoesOn(states, labels, n);
  }

  lemma ReaderGoesOn(states: seq<State>, labels: seq<Label>, n: nat) returns (next: Label)
    requires IsRun(states, labels) && n < |states|
    ensures !states[n].reader.pc.Exited? ==> Enabled(states[n], next) && Progress.IsReadersTurn(next)
  {
    RunKeepsInv(states, labels, n);
    if states[n].reader.pc.Exited? {
      next := Tick(0);
    } else {
      next := Progress.ReaderCanStep(states[n]);
    }
  }

  lemma ConfigStays(states: seq<State>, labels: seq<Label>, i: nat)
    requires IsSegment(states, labels) && i < |labels|
    ensures states[i + 1].cfg == states[i].cfg
  {
    FollowsAt(states, labels, i);
  }

  lemma {:induction false} ConfigIsFixed(states: seq<State>, labels: seq<Label>, n: nat)
    requires IsSegment(states, labels) && n <= |labels|
    ensures states[n].cfg == states[0].cfg
  {
    if n > 0 {
      ConfigIsFixed(states, labels, n - 1);
      ConfigStays(states, labels, n - 1);
    }
  }

  lemma TablesInvAt(states: seq<State>, labels: seq<Label>, i: nat)
    requires IsRun(states, labels) && i < |states|
    ensures TablesInv(states[i])
  {
    RunKeepsInv(states, labels, i);
  }

  lemma HandledWasReceived(states: seq<State>, labels: seq<Label>, i: nat)
    requires IsRun(states, labels) && i < |states|
    ensures states[i].requests.handled <= Wire.Replies(labels, i)
    ensures states[i].pings.pongs <= Wire.Pongs(labels, i)
  {
    Wire.AnswersMatchRun(states, labels, i);
  }

  /** A call that returned has no entry, and a value or protocol error it returned is the content of the
      first reply with its own id among those received, counting from those handled when it registered. */
  ghost predicate GotOwnAnswer(s: Requests.State, call: Requests.Call, c: Requests.CallId, received: seq<Requests.Handled>)
    requires call.pc.Returned?
  {
    && c !in s.pending.Values
    && (call.pc.outcome.Value? || call.pc.outcome.Protocol? ==>
          && call.since.Some?
          && exists k :: Requests.IsFirstReply(received, call.since.value, call.id, k)
                         && call.pc.outcome == Requests.OutcomeOf(received[k].reply, true))
  }

  lemma AnswerWasReceived(s: Requests.State, c: Requests.CallId, received: seq<Requests.Handled>)
    requires Requests.Inv(s) && c in s.calls && s.calls[c].pc.Returned? && s.handled <= received
    ensures GotOwnAnswer(s, s.calls[c], c, received)
  {
    var call := s.calls[c];
    Requests.ReturnedLeavesNoEntry(s, c);
    if call.pc.outcome.Value? || call.pc.outcome.Protocol? {
      Requests.AnswerIsOwnFirstReply(s, c);
      var k :| Requests.IsFirstReply(s.handled, call.since.value, call.id, k)
               && call.pc.outcome == Requests.OutcomeOf(s.handled[k].reply, true);
      Wire.FirstHandledIsFirstReceived(s.handled, received, call.since.value, call.id, k);
    }
  }

  /** Right answer to the right caller, in every reachable state and across any number of redials. */
  lemma RightAnswerToRightCaller(states: seq<State>, labels: seq<Label>, i: nat, c: Requests.CallId)
    requires IsRun(states, labels) && i < |states|
    requires c in states[i].requests.calls && states[i].requests.calls[c].pc.Returned?
    ensures var s := states[i].requests;
            GotOwnAnswer(s, s.calls[c], c, Wire.Replies(labels, i))
  {
    TablesInvAt(states, labels, i);
    HandledWasReceived(states, labels, i);
    AnswerWasReceived(states[i].requests, c, Wire.Replies(labels, i));
  }

  /** A ping that returned has no entry, and `Ok` means that a pong echoing its own token was received,
      counting from those handled when it registered. */
  ghost predicate GotOwnPong(s: Pings.State, ping: Pings.Ping, p: Pings.PingId, received: seq<seq<BigEndian.Byte>>)
    requires ping.pc.Returned?
  {
    && p !in s.waiters.Values
    && (ping.pc.outcome.Answered? ==>
          && ping.ticket.Some?
          && exists k :: ping.ticket.value.since <= k < |received|
                         && received[k] == BigEndian.ToBytes(ping.ticket.value.token))
  }

  lemma PongWasReceived(s: Pings.State, p: Pings.PingId, received: seq<seq<BigEndian.Byte>>)
    requires Pings.Inv(s) && p in s.pings && s.pings[p].pc.Returned? && s.pongs <= received
    ensures GotOwnPong(s, s.pings[p], p, received)
  {
    Pings.ReturnedLeavesNoEntry(s, p);
    if s.pings[p].pc.outcome.Answered? {
      Pings.OkMeansOwnPong(s, p);
      var t := s.pings[p].ticket.value;
      var k :| t.since <= k < |s.pongs| && s.pongs[k] == BigEndian.ToBytes(t.token);
      assert received[k] == BigEndian.ToBytes(t.token);
    }
  }

  /** Exact pings, in every reachable state. */
  lemma RightPongToRightPing(states: seq<State>, labels: seq<Label>, i: nat, p: Pings.PingId)
    requires IsRun(states, labels) && i < |states|
    requires p in states[i].pings.pings && states[i].pings.pings[p].pc.Returned?
    ensures var s := states[i].pings;
            GotOwnPong(s, s.pings[p], p, Wire.Pongs(labels, i))
  {
    TablesInvAt(states, labels, i);
    HandledWasReceived(states, labels, i);
    PongWasReceived(states[i].pings, p, Wire.Pongs(labels, i));
  }

  /** No ping crosses a redial: in every reachable state, every ping still in the table registered after
      the clearing that preceded the latest redial. */
  lemma NoPingCrossesARedial(states: seq<State>, labels: seq<Label>, i: nat, t: BigEndian.U64)
    requires IsRun(states, labels) && i < |states| && t in states[i].pings.waiters
    ensures var s := states[i].pings;
            && s.waiters[t] in s.pings && s.pings[s.waiters[t]].ticket.Some?
            && states[i].subs.redials <= s.pings[s.waiters[t]].ticket.value.epoch
  {
    RunKeepsInv(states, labels, i);
    assert Pings.WaiterInv(states[i].pings, t);
  }

  /** At most one reply per CALL received, under that CALL's own id, and none to a SEND, in every reachable
      state. */
  lemma OneReplyPerCall(states: seq<State>, labels: seq<Label>, i: nat)
    requires IsRun(states, labels) && i < |states|
    ensures var replies, received := states[i].calls.replies, Wire.Frames(labels, i, true);
            && (forall j, k :: 0 <= j < k < |replies| ==> replies[j].occurrence != replies[k].occurrence)
            && (forall j :: 0 <= j < |replies| ==>
                  replies[j].occurrence < |received| && replies[j].id == received[replies[j].occurrence].id)
    ensures states[i].notes.replies == []
  {
    RunKeepsInv(states, labels, i);
    Wire.InboundMatchesRun(states, labels, i);
    Handlers.AtMostOneReply(states[i].calls);
    Handlers.AtMostOneReply(states[i].notes);
  }

  predicate IsRedialStep(l: ReaderLabel) {
    || l.Decide? || l.CourtesyDone? || l.ClearOnRedial? || l.BeginBackoff? || l.TimerReady? || l.TimerPending?
    || l.ReadBackoffWake? || l.UnparkBackoff? || l.CheckAfterBackoffWake? || l.CheckBeforeDial? || l.BeginDial?
    || l.DialFailed? || l.DialSucceeded? || l.SwapIn? || l.NotifyStep?
  }

  /** Redialling touches no pending request and no registration. */
  lemma RedialKeepsRequestsAndHandlers(s: State, l: ReaderLabel)
    requires Enabled(s, Read(l)) && IsRedialStep(l)
    ensures var t := Step(s, Read(l));
            t.requests == s.requests && t.calls == s.calls && t.notes == s.notes
  {
  }

  /** Reconnect callbacks, in every reachable state: coalesced, never missed, and never begun while
      the transport they announce is not yet in place. */
  lemma ReconnectNeverMissed(states: seq<State>, labels: seq<Label>, i: nat, k: Subscribers.SubId)
    requires IsRun(states, labels) && i < |states| && k in states[i].subs.subs
    ensures var s := states[i].subs; var sub := s.subs[k];
            && sub.started + One(sub.token) <= s.redials - sub.at + One(sub.inWindow)
            && (sub.heard < s.redials ==> sub.token || states[i].reader.pc.NotifySubscribers?)
    ensures states[i].subs.phase.Swapped? ==> states[i].reader.pc.NotifySubscribers?
  {
    RunKeepsInv(states, labels, i);
    Subscribers.CoalescedNeverMissed(states[i].subs, k);
  }

  /** No hot redial loop, in every reachable state. */
  lemma NoHotRedialLoop(states: seq<State>, labels: seq<Label>, i: nat)
    requires IsRun(states, labels) && i < |states|
    ensures var s := states[i]; var g := s.reader.segment;
            && g.dials <= |g.rounds| && InOrder(g.rounds)
            && Cuts(g.rounds) <= g.notified + One(g.latched)
            && s.now - g.start >= UncutHalves(s.cfg.backoff, g.rounds)
  {
    RunKeepsInv(states, labels, i);
    RedialProofs.NoHotRedialLoop(states[i].cfg, states[i].now, states[i].shared.wake, states[i].reader);
  }

  function WakesNotified(labels: seq<Label>, n: nat): nat
    requires n <= |labels|
  {
    if n == 0 then 0 else WakesNotified(labels, n - 1) + One(NotifiesWake(labels[n - 1]))
  }

  function DialsBegun(labels: seq<Label>, n: nat): nat
    requires n <= |labels|
  {
    if n == 0 then 0 else DialsBegun(labels, n - 1) + One(labels[n - 1] == Read(BeginDial))
  }

  lemma SegmentStep(cfg: Config, now: nat, sh: Shared, r: Reader, l: Label, settled: bool)
    requires (l.Read? ==> ReaderGuard(r.pc, l.r, now)) && !Shutdown.IsEvent(l)
    ensures var g, g' := r.segment, NextReader(cfg, now, sh, r, l, settled).segment;
            && g'.start == g.start && g'.latched == g.latched
            && g'.dials == g.dials + One(l == Read(BeginDial))
            && g'.notified == g.notified + One(NotifiesWake(l))
  {
  }

  /** The account is about the run itself: over any stretch with no inbound event, the dials and wakes it
      counts are exactly the dials begun and the wakes notified in that stretch. */
  lemma {:induction false} AccountMatchesRun(states: seq<State>, labels: seq<Label>, n: nat)
    requires IsSegment(states, labels) && n <= |labels|
    requires forall i :: 0 <= i < n ==> !Shutdown.IsEvent(labels[i])
    ensures var g, g' := states[0].reader.segment, states[n].reader.segment;
            && g'.start == g.start && g'.latched == g.latched
            && g'.dials == g.dials + DialsBegun(labels, n)
            && g'.notified == g.notified + WakesNotified(labels, n)
  {
    if n > 0 {
      AccountMatchesRun(states, labels, n - 1);
      var s, l := states[n - 1], labels[n - 1];
      FollowsAt(states, labels, n - 1);
      SegmentStep(s.cfg, s.now, s.shared, s.reader, l, Settled(s, l));
    }
  }

  lemma EventStartsAccount(s: State, l: Label, t: State)
    requires Follows(s, l, t) && Shutdown.IsEvent(l)
    ensures t.reader.segment == Segment(t.now, [], 0, 0, s.shared.wake)
  {
  }

  lemma AccountSinceEvent(states: seq<State>, labels: seq<Label>, i: nat, n: nat)
    requires IsSegment(states, labels) && i < n <= |labels| && Shutdown.IsEvent(labels[i])
    requires forall j :: i < j < n ==> !Shutdown.IsEvent(labels[j])
    ensures var g := states[n].reader.segment;
            && g.start == states[i + 1].now && g.latched == states[i].shared.wake
            && g.dials == DialsBegun(labels[i + 1..], n - i - 1)
            && g.notified == WakesNotified(labels[i + 1..], n - i - 1)
  {
    var from, rest, m := states[i + 1..], labels[i + 1..], n - i - 1;
    SuffixIsSegment(states, labels, i + 1);
    assert forall j :: 0 <= j < m ==> rest[j] == labels[i + 1 + j];
    assert from[0] == states[i + 1] && from[m] == states[n];
    AccountMatchesRun(from, rest, m);
    FollowsAt(states, labels, i);
    EventStartsAccount(states[i], labels[i], states[i + 1]);
  }

  /** The account of a state bounds the rate of dials since its start. */
  lemma RateAt(states: seq<State>, labels: seq<Label>, n: nat, start: nat, d: nat, w: nat)
    requires IsRun(states, labels) && n <= |labels| && Growing(states[0].cfg.backoff)
    requires var g := states[n].reader.segment; g.start == start && g.dials == d && g.notified + One(g.latched) == w
    ensures d >= w ==> states[n].now - start >= FirstHalves(states[0].cfg.backoff, d - w)
  {
    var s := states[n];
    SegmentInvAt(states, labels, n);
    ConfigIsFixed(states, labels, n);
    RedialProofs.RateFromAccount(s.cfg, s.now, s.shared.wake, s.reader, start, d, w);
  }

  /**
   The redial rate over the run itself: after an inbound event at step `i`, as long as no further event
   arrives, `d` dials against `w` wakes, those notified since and one that was latched already, take at
   least half of the first `d - w` delays of a growing policy.
   */
  lemma DialRateInRun(states: seq<State>, labels: seq<Label>, i: nat, n: nat)
    requires IsRun(states, labels) && i < n <= |labels| && Shutdown.IsEvent(labels[i])
    requires forall j :: i < j < n ==> !Shutdown.IsEvent(labels[j])
    requires Growing(states[0].cfg.backoff)
    ensures var d := DialsBegun(labels[i + 1..], n - i - 1);
            var w := WakesNotified(labels[i + 1..], n - i - 1) + One(states[i].shared.wake);
            d >= w ==> states[n].now - states[i + 1].now >= FirstHalves(states[0].cfg.backoff, d - w)
  {
    AccountSinceEvent(states, labels, i, n);
    RateAt(states, labels, n, states[i + 1].now, DialsBegun(labels[i + 1..], n - i - 1),
           WakesNotified(labels[i + 1..], n - i - 1) + One(states[i].shared.wake));
  }

  /** And before the first event: a peer that accepts and closes at once, and never sends anything, is
      dialled no faster. */
  lemma DialRateFromStart(states: seq<State>, labels: seq<Label>, n: nat)
    requires IsRun(states, labels) && n <= |labels| && Growing(states[0].cfg.backoff)
    requires forall j :: 0 <= j < n ==> !Shutdown.IsEvent(labels[j])
    ensures var d, w := DialsBegun(labels, n), WakesNotified(labels, n);
            d >= w ==> states[n].now >= FirstHalves(states[0].cfg.backoff, d - w)
  {
    AccountMatchesRun(states, labels, n);
    RateAt(states, labels, n, 0, DialsBegun(labels, n), WakesNotified(labels, n));
  }

  /** Keepalive, in every reachable state: redials forced at exactly the allowed miss, each notified to
      the read loop once, and no wait on a stale interval. */
  lemma KeepaliveExact(states: seq<State>, labels: seq<Label>, i: nat)
    requires IsRun(states, labels) && i < |states|
    ensures var s := states[i]; var k := s.keeper;
            && k.missed == Keepalive.Misses(k.log) < Keepalive.MissesAllowed(Keepalive.PolicyOf(s.cfg.keepalive))
            && DeadPeer.ForcedExactly(k.log, Keepalive.MissesAllowed(Keepalive.PolicyOf(s.cfg.keepalive)))
            && (DeadPeer.WaitingOn(k.pc).Some? && !s.shared.changed && s.shared.setters == 0 ==>
                  DeadPeer.WaitingOn(k.pc).value == s.shared.millis)
            && (!s.shared.closed ==>
                  Force.ForcesNotified(labels, i) + One(Force.Forcing(k.pc)) == Force.ForcesLogged(k.log))
  {
    RunKeepsInv(states, labels, i);
    if !states[i].shared.closed {
      Force.EveryForceIsNotified(states, labels, i);
    }
  }

  lemma PingingInvBetween(states: seq<State>, labels: seq<Label>, lo: nat, hi: nat)
    requires IsRun(states, labels) && lo <= hi < |states|
    ensures forall i :: lo <= i <= hi ==> DeadPeer.PingingInv(states[i].now, states[i].keeper, states[i].pings)
  {
    forall i | lo <= i <= hi
      ensures DeadPeer.PingingInv(states[i].now, states[i].keeper, states[i].pings)
    {
      PingingInvAt(states, labels, i);
    }
  }

  /** In every run, each deadline of a keepalive ping that passed is one ping logged as timed out, the one
      being forgotten excepted. */
  lemma EveryDeadlineIsATimeOut(states: seq<State>, labels: seq<Label>, n: nat)
    requires IsRun(states, labels) && n <= |labels|
    ensures Detection.DeadlinesPassed(states, labels, n)
         == Detection.TimeOuts(states[n].keeper.log) + One(Detection.RanLate(states[n].keeper.pc, states[n].pings))
  {
    PingingInvBetween(states, labels, 0, n);
    Detection.EveryDeadlineIsATimeOut(states, labels, n);
  }

  /** Step `hi` is the keepalive loop's decision to force a redial, for misses that were all counted since
      state `lo`, with no new interval stored in between. */
  ghost predicate IsDetection(states: seq<State>, labels: seq<Label>, lo: nat, hi: nat) {
    && IsRun(states, labels) && lo <= hi < |labels|
    && labels[hi] == Keep(PingDone) && states[hi + 1].keeper.pc.ForceCheck? && !states[hi].shared.closed
    && Detection.Fresh(states[lo].keeper) && Detection.NoResetSince(states[lo].keeper.log, states[hi].keeper.log)
    && forall j :: lo <= j < hi ==> !DeadPeer.IsStore(labels[j])
  }

  lemma ForceStep(s: State, l: Label, t: State)
    requires Follows(s, l, t) && l == Keep(PingDone) && t.keeper.pc.ForceCheck?
    ensures KeeperGuard(s.keeper.pc, PingDone, s.now, s.pings)
    ensures AfterKeep(s.cfg, s.now, s.shared, s.keeper, s.pings, PingDone).pc.ForceCheck?
  {
  }

  lemma LogAtDetection(states: seq<State>, labels: seq<Label>, lo: nat, hi: nat)
    requires IsDetection(states, labels, lo, hi)
    ensures var s := states[hi];
            && Detection.AtForce(s.cfg, s.now, s.keeper, s.pings, states[lo].keeper.log, states[lo].shared.millis)
            && s.keeper.pc.Pinging?
  {
    var s := states[hi];
    MissInvAt(states, labels, hi);
    PingingInvAt(states, labels, hi);
    DeadPeer.OneIntervalPerStretch(states, labels, lo, hi);
    FollowsAt(states, labels, hi);
    ForceStep(s, labels[hi], states[hi + 1]);
    Detection.LogAtForce(s.cfg, s.now, s.shared, s.keeper, s.pings, states[lo].keeper.log);
  }

  /**
   Detection time, by the clock of the run: from the last answer, observed reconfiguration or force to the
   decision to force a redial, the time that passes is at most the allowed number of intervals and pong
   deadlines, apart from time in which neither the loop nor the ping it awaits was waiting for a timer,
   and at least the allowed number of intervals.
   */
  lemma DetectionInRun(states: seq<State>, labels: seq<Label>, lo: nat, hi: nat)
    requires IsDetection(states, labels, lo, hi)
    ensures var s := states[hi];
            var allowed := Keepalive.MissesAllowed(Keepalive.PolicyOf(s.cfg.keepalive));
            var interval := states[lo].shared.millis * Keepalive.MILLI;
            var waited := s.now - states[lo].now - Detection.LateTime(states, labels, lo, hi);
            allowed * interval <= waited <= allowed * (interval + PingTimeout(s.cfg))
  {
    PingingInvBetween(states, labels, lo, hi);
    Detection.TimeIsWaitsAndLateness(states, labels, lo, hi);
    LogAtDetection(states, labels, lo, hi);
    Detection.NothingSinceReset(states[lo].keeper.log);
  }

  /** The same in timers: exactly the allowed number of intervals ended, and at most as many pong deadlines
      passed. */
  lemma TimersUntilDetection(states: seq<State>, labels: seq<Label>, lo: nat, hi: nat)
    requires IsDetection(states, labels, lo, hi)
    ensures var allowed := Keepalive.MissesAllowed(Keepalive.PolicyOf(states[hi].cfg.keepalive));
            && Detection.IntervalsEnded(labels, hi) == Detection.IntervalsEnded(labels, lo) + allowed
            && Detection.DeadlinesPassed(states, labels, hi) <= Detection.DeadlinesPassed(states, labels, lo) + allowed
  {
    LogAtDetection(states, labels, lo, hi);
    Detection.OpenUntil(states, labels, lo, hi);
    Detection.EveryIntervalIsARound(states, labels, lo);
    Detection.EveryIntervalIsARound(states, labels, hi);
    EveryDeadlineIsATimeOut(states, labels, lo);
    EveryDeadlineIsATimeOut(states, labels, hi);
  }

  /** Every mapped channel is open; every task holds a mapped or closed channel, except the one being
      replaced at this moment. */
  ghost predicate RegistrationsSound(h: Handlers.State) {
    && (forall a :: a in h.registry ==> h.registry[a] in h.chans && !h.chans[h.registry[a]].closed)
    && (forall c :: c in h.receivers && h.receivers[c].kind.Handler? ==>
          Handlers.Mapped(h, c) || (c in h.chans && h.chans[c].closed) || h.lock == Handlers.Retiring(c))
  }

  /** Registrations, in every reachable state. */
  lemma HandlersRetire(states: seq<State>, labels: seq<Label>, i: nat)
    requires IsRun(states, labels) && i < |states|
    ensures RegistrationsSound(states[i].calls) && RegistrationsSound(states[i].notes)
  {
    RunKeepsInv(states, labels, i);
    Handlers.RegistrationsSound(states[i].calls);
    Handlers.RegistrationsSound(states[i].notes);
  }

  /** The engine's own locks, in every reachable state: whoever is in the middle of a registration, of a
      check for `closed` under a queue lock, or of a round of notifications can take its next step, so no
      lock of the engine is held for good. */
  lemma EngineLocksMove(states: seq<State>, labels: seq<Label>, i: nat)
    requires IsRun(states, labels) && i < |states|
    ensures var s := states[i];
            && (s.calls.lock.Retiring? ==> Enabled(s, CallTaskStep(Handlers.CloseReplaced)))
            && (s.calls.lock.Announcing? ==> Enabled(s, CallTaskStep(Handlers.SignalReplaced)))
            && (forall c :: c in s.calls.chans && s.calls.chans[c].rx.EmptyLocked? ==>
                  Enabled(s, CallTaskStep(Handlers.LoadClosed(c))))
            && (s.notes.lock.Retiring? ==> Enabled(s, NoteTaskStep(Handlers.CloseReplaced)))
            && (s.notes.lock.Announcing? ==> Enabled(s, NoteTaskStep(Handlers.SignalReplaced)))
            && (forall c :: c in s.notes.chans && s.notes.chans[c].rx.EmptyLocked? ==>
                  Enabled(s, NoteTaskStep(Handlers.LoadClosed(c))))
            && (s.subs.phase.Notifying? ==> exists n :: Enabled(s, Read(NotifyStep(n))))
  {
    RunKeepsInv(states, labels, i);
    var s := states[i];
    Progress.CallLocksMove(s);
    Progress.NoteLocksMove(s);
    if s.subs.phase.Notifying? {
      var l := Progress.NotifyCanStep(s);
    }
  }

  /** The receivers of a registry: a handler task owed no signal can step or waits for work, a `wait_for`
      call, or the registration whose lock it needs, can step. */
  ghost predicate ReceiversGoOn(h: Handlers.State) {
    forall c :: c in h.receivers && !h.receivers[c].work.Ended? && !h.receivers[c].work.Dropped? ==>
      && c in h.chans
      && (h.receivers[c].kind.Waiter? ==> Handlers.Enabled(h, Handlers.NextOfWaiter(h, c)))
      && (h.receivers[c].kind.Handler? && h.reader != Handlers.Pushed(c) && h.lock != Handlers.Announcing(c) ==>
            Handlers.Enabled(h, Handlers.NextOf(h, c)) || Handlers.WaitsForWork(h, c))
  }

  lemma ReceiversCanStep(h: Handlers.State)
    requires Handlers.Inv(h)
    ensures ReceiversGoOn(h)
  {
    forall c | c in h.receivers && !h.receivers[c].work.Ended? && !h.receivers[c].work.Dropped?
      ensures c in h.chans
      ensures h.receivers[c].kind.Waiter? ==> Handlers.Enabled(h, Handlers.NextOfWaiter(h, c))
      ensures h.receivers[c].kind.Handler? && h.reader != Handlers.Pushed(c) && h.lock != Handlers.Announcing(c) ==>
                Handlers.Enabled(h, Handlers.NextOf(h, c)) || Handlers.WaitsForWork(h, c)
    {
      if h.receivers[c].kind.Waiter? {
        Handlers.WaiterCanStep(h, c);
      } else if h.reader != Handlers.Pushed(c) && h.lock != Handlers.Announcing(c) {
        Handlers.TaskCanStep(h, c);
      }
    }
  }

  ghost predicate CallersGoOn(s: State) {
    forall c :: c in s.requests.calls && !s.requests.calls[c].pc.Returned? && !s.requests.calls[c].pc.Dropped? ==>
      Enabled(s, RequestStep(Progress.CallLabelOf(s.requests.calls[c].pc, c, s.shared.closed)))
  }

  ghost predicate PingsGoOn(s: State) {
    forall p :: p in s.pings.pings && !s.pings.pings[p].pc.Returned? && !s.pings.pings[p].pc.Dropped? ==>
      Enabled(s, PingStep(Progress.PingLabelOf(s.pings.pings[p].pc, p, s.shared.closed)))
  }

  ghost predicate SubscribersGoOn(s: Subscribers.State) {
    forall k :: k in s.subs ==>
      && (s.subs[k].inCallback ==> Subscribers.Enabled(s, Subscribers.EndCallback(k)))
      && (!s.subs[k].inCallback && s.subs[k].token ==> Subscribers.Enabled(s, Subscribers.BeginCallback(k)))
  }

  lemma ActorsCanStep(s: State)
    ensures CallersGoOn(s) && PingsGoOn(s) && SubscribersGoOn(s.subs)
  {
    forall c | c in s.requests.calls && !s.requests.calls[c].pc.Returned? && !s.requests.calls[c].pc.Dropped?
      ensures Enabled(s, RequestStep(Progress.CallLabelOf(s.requests.calls[c].pc, c, s.shared.closed)))
    {
      Progress.CallerCanStep(s, c);
    }
    forall p | p in s.pings.pings && !s.pings.pings[p].pc.Returned? && !s.pings.pings[p].pc.Dropped?
      ensures Enabled(s, PingStep(Progress.PingLabelOf(s.pings.pings[p].pc, p, s.shared.closed)))
    {
      Progress.PingCanStep(s, p);
    }
    forall k | k in s.subs.subs
      ensures s.subs.subs[k].inCallback ==> Subscribers.Enabled(s.subs, Subscribers.EndCallback(k))
      ensures !s.subs.subs[k].inCallback && s.subs.subs[k].token ==> Subscribers.Enabled(s.subs, Subscribers.BeginCallback(k))
    {
      Subscribers.SubscriberCanStep(s.subs, k);
    }
  }

  /** Nobody is stuck, in every reachable state: every unfinished call, ping, handler task, `wait_for` call
      and subscriber can step, or has nothing to do, or waits for a step that is enabled. The two loops are
      `ReaderGoesOn` and `KeeperGoesOn`. */
  lemma NobodyIsStuck(states: seq<State>, labels: seq<Label>, i: nat)
    requires IsRun(states, labels) && i < |states|
    ensures CallersGoOn(states[i]) && PingsGoOn(states[i]) && SubscribersGoOn(states[i].subs)
    ensures ReceiversGoOn(states[i].calls) && ReceiversGoOn(states[i].notes)
  {
    ActorsCanStep(states[i]);
    RegistriesInvAt(states, labels, i);
    ReceiversCanStep(states[i].calls);
    ReceiversCanStep(states[i].notes);
  }

  lemma RegistriesInvAt(states: seq<State>, labels: seq<Label>, i: nat)
    requires IsRun(states, labels) && i < |states|
    ensures RegistriesInv(states[i])
  {
    RunKeepsInv(states, labels, i);
  }

  // ------------------------------------------------------------------ the two registries over runs

  function RegistryOf(s: State, answering: bool): Handlers.State {
    if answering then s.calls else s.notes
  }

  function RegistryLabel(pc: ReaderPc, l: Label, answering: bool): Option<Handlers.Label> {
    if answering then CallLabel(pc, l) else NoteLabel(pc, l)
  }

  /** Each registry moves by its own steps only. */
  lemma RegistryMoves(s: State, l: Label, answering: bool)
    requires Enabled(s, l)
    ensures Handlers.IsMove(RegistryOf(s, answering), RegistryLabel(s.reader.pc, l, answering),
                            RegistryOf(Step(s, l), answering))
  {
  }

  /** What a run of the engine is for one of its registries. */
  ghost function RegistryStates(states: seq<State>, answering: bool): seq<Handlers.State> {
    seq(|states|, i requires 0 <= i < |states| => RegistryOf(states[i], answering))
  }

  ghost function RegistryLabels(states: seq<State>, labels: seq<Label>, answering: bool): seq<Option<Handlers.Label>>
    requires |labels| < |states|
  {
    seq(|labels|, i requires 0 <= i < |labels| => RegistryLabel(states[i].reader.pc, labels[i], answering))
  }

  lemma RegistryMovesAt(states: seq<State>, labels: seq<Label>, answering: bool, i: nat)
    requires IsSegment(states, labels) && i < |labels|
    ensures Handlers.IsMove(RegistryStates(states, answering)[i], RegistryLabels(states, labels, answering)[i],
                            RegistryStates(states, answering)[i + 1])
  {
    FollowsAt(states, labels, i);
    RegistryMoves(states[i], labels[i], answering);
  }

  lemma RegistryRun(states: seq<State>, labels: seq<Label>, answering: bool)
    requires IsRun(states, labels)
    ensures Handlers.IsRun(RegistryStates(states, answering), RegistryLabels(states, labels, answering))
  {
    var hs, ls := RegistryStates(states, answering), RegistryLabels(states, labels, answering);
    forall i | 0 <= i < |ls|
      ensures Handlers.IsMove(hs[i], ls[i], hs[i + 1])
    {
      RegistryMovesAt(states, labels, answering, i);
    }
  }

  /**
   Retirement in every run and in both registries: from any state in which a handler's channel has been
   closed, its task takes at most as many steps as its debt there, and once it has taken that many it has
   ended.
   */
  lemma RetiredTasksEnd(states: seq<State>, labels: seq<Label>, c: Handlers.ChanId, answering: bool, lo: nat, hi: nat)
    requires IsRun(states, labels) && lo <= hi <= |labels| && Handlers.Retired(RegistryOf(states[lo], answering), c)
    ensures var h, h' := RegistryOf(states[lo], answering), RegistryOf(states[hi], answering);
            var steps := Handlers.TaskSteps(RegistryLabels(states, labels, answering), c, lo, hi);
            && Handlers.Retired(h', c)
            && steps + Handlers.Debt(h', c) <= Handlers.Debt(h, c)
            && (steps == Handlers.Debt(h, c) ==> h'.receivers[c].work.Ended?)
  {
    var hs, ls := RegistryStates(states, answering), RegistryLabels(states, labels, answering);
    RegistryRun(states, labels, answering);
    Handlers.RunKeepsInv(hs, ls, lo);
    Handlers.RetiredTaskRunsOut(hs, ls, c, lo, hi);
  }

  /** Conservation in every run: an inbound CALL or SEND the read loop has handed over was given up on by
      an earlier step, or is answered, queued or being worked on. */
  lemma NoFrameDisappears(states: seq<State>, labels: seq<Label>, k: nat, answering: bool, n: nat)
    requires IsRun(states, labels) && n <= |labels|
    requires var h := RegistryOf(states[n], answering); k < |h.inbound| && h.reader.Idle?
    ensures || Handlers.Accounted(RegistryOf(states[n], answering), k)
            || exists i :: i < n && Handlers.GivesUpAt(
                             RegistryStates(states, answering), RegistryLabels(states, labels, answering), k, i)
  {
    RegistryRun(states, labels, answering);
    Handlers.NoFrameDisappears(RegistryStates(states, answering), RegistryLabels(states, labels, answering), k, n);
  }
}
