/**
 Which sink `disconnect` closes. It closes the one in place when it gets to it; a dial under way at that
 moment can still swap in a new one, which nobody closes.
 */
module SinkSwap {
  import opened Prelude
  import opened Engine
  import Backoff
  import Progress
  import Shutdown
  import Subscribers

  predicate IsSwap(l: Label) {
    l == Read(SwapIn)
  }

  function Swaps(labels: seq<Label>, lo: nat, hi: nat): nat
    requires lo <= hi <= |labels|
  {
    if lo == hi then 0 else Swaps(labels, lo, hi - 1) + One(IsSwap(labels[hi - 1]))
  }

  /** Only sinks that were in place have been closed. */
  predicate SinksInv(sinks: Sinks) {
    forall k :: k in sinks.closed ==> k <= sinks.current
  }

  lemma StepKeepsSinksInv(sinks: Sinks, l: Label)
    requires SinksInv(sinks)
    ensures SinksInv(NextSinks(sinks, l))
  {
  }

  lemma SinksAfter(s: State, l: Label, t: State)
    requires Follows(s, l, t)
    ensures t.sinks == NextSinks(s.sinks, l)
  {
  }

  lemma SinksInvAfter(states: seq<State>, labels: seq<Label>, i: nat)
    requires IsSegment(states, labels) && i < |labels| && SinksInv(states[i].sinks)
    ensures SinksInv(states[i + 1].sinks)
  {
    FollowsAt(states, labels, i);
    SinksAfter(states[i], labels[i], states[i + 1]);
    StepKeepsSinksInv(states[i].sinks, labels[i]);
  }

  lemma {:induction false} RunKeepsSinksInv(states: seq<State>, labels: seq<Label>, n: nat)
    requires IsRun(states, labels) && n <= |labels|
    ensures SinksInv(states[n].sinks)
  {
    if n > 0 {
      RunKeepsSinksInv(states, labels, n - 1);
      SinksInvAfter(states, labels, n - 1);
    }
  }

  /** `disconnect` has closed sink `base`, and `swaps` sinks were swapped in since. */
  ghost predicate Since(s: State, base: nat, swaps: nat) {
    && s.shared.closed
    && s.sinks.current == base + swaps
    && base in s.sinks.closed && (forall k :: k in s.sinks.closed ==> k <= base)
    && (s.reader.pc.Courtesy? ==> swaps == 0)
  }

  lemma CourtesyAfter(cfg: Config, now: nat, sh: Shared, r: Reader, l: ReaderLabel, settled: bool)
    requires ReaderGuard(r.pc, l, now) && sh.closed
    ensures !NextPc(cfg, now, sh, r, l, settled).Courtesy?
    ensures l.CourtesyDone? ==> r.pc.Courtesy?
  {
  }

  lemma NoCourtesyOnceClosed(s: State, l: Label, t: State)
    requires Follows(s, l, t) && s.shared.closed
    ensures t.shared.closed
    ensures t.reader.pc.Courtesy? ==> s.reader.pc.Courtesy? && !IsSwap(l)
    ensures l == Read(CourtesyDone) ==> s.reader.pc.Courtesy?
  {
    if l.Read? {
      CourtesyAfter(s.cfg, s.now, s.shared, s.reader, l.r, Settled(s, l));
    }
  }

  lemma StepKeepsSince(s: State, l: Label, t: State, base: nat, swaps: nat)
    requires Follows(s, l, t) && Since(s, base, swaps) && l != Client(DisconnectDone)
    ensures Since(t, base, swaps + One(IsSwap(l)))
  {
    NoCourtesyOnceClosed(s, l, t);
    SinksAfter(s, l, t);
  }

  /** `disconnect` gets to its end only once. */
  lemma DoneIsFinal(s: State, l: Label, t: State)
    requires Follows(s, l, t) && s.shared.closed && s.shared.closer.Done?
    ensures l != Client(DisconnectDone) && t.shared.closer.Done? && t.shared.closed
  {
  }

  ghost predicate SinceIsDone(s: State, base: nat, swaps: nat) {
    Since(s, base, swaps) && s.shared.closer.Done?
  }

  lemma SinceAfter(states: seq<State>, labels: seq<Label>, i: nat, base: nat, swaps: nat)
    requires IsSegment(states, labels) && i < |labels| && SinceIsDone(states[i], base, swaps)
    ensures SinceIsDone(states[i + 1], base, swaps + One(IsSwap(labels[i])))
  {
    FollowsAt(states, labels, i);
    DoneIsFinal(states[i], labels[i], states[i + 1]);
    StepKeepsSince(states[i], labels[i], states[i + 1], base, swaps);
  }

  lemma {:induction false} SinceDone(states: seq<State>, labels: seq<Label>, lo: nat, hi: nat, base: nat)
    requires IsSegment(states, labels) && lo <= hi <= |labels|
    requires SinceIsDone(states[lo], base, 0)
    ensures SinceIsDone(states[hi], base, Swaps(labels, lo, hi))
    decreases hi
  {
    if lo < hi {
      SinceDone(states, labels, lo, hi - 1, base);
      SinceAfter(states, labels, hi - 1, base, Swaps(labels, lo, hi - 1));
    }
  }

  lemma DoneCloses(s: State, l: Label, t: State)
    requires Follows(s, l, t) && l == Client(DisconnectDone) && SinksInv(s.sinks) && Shutdown.Inv(s)
    ensures Since(t, s.sinks.current, 0) && t.shared.closer.Done? && t.reader.pc == s.reader.pc
  {
    SinksAfter(s, l, t);
  }

  lemma DoneClosesAt(states: seq<State>, labels: seq<Label>, i: nat)
    requires IsSegment(states, labels) && i < |labels| && labels[i] == Client(DisconnectDone)
    requires SinksInv(states[i].sinks) && Shutdown.Inv(states[i])
    ensures SinceIsDone(states[i + 1], states[i].sinks.current, 0) && states[i + 1].reader.pc == states[i].reader.pc
  {
    FollowsAt(states, labels, i);
    DoneCloses(states[i], labels[i], states[i + 1]);
  }

  predicate SinkIsClosed(s: State) {
    s.sinks.current in s.sinks.closed
  }

  lemma SinceMeans(s: State, base: nat, swaps: nat)
    requires Since(s, base, swaps)
    ensures SinkIsClosed(s) <==> swaps == 0
  {
  }

  /** Once `disconnect` is done at step `i`, the sink in place is closed exactly as long as none was swapped
      in since. */
  lemma ClosedIffNotSwapped(states: seq<State>, labels: seq<Label>, i: nat, n: nat)
    requires IsSegment(states, labels) && i < n <= |labels| && labels[i] == Client(DisconnectDone)
    requires SinksInv(states[i].sinks) && Shutdown.Inv(states[i])
    ensures SinkIsClosed(states[n]) <==> Swaps(labels, i + 1, n) == 0
  {
    DoneClosesAt(states, labels, i);
    SinceDone(states, labels, i + 1, n, states[i].sinks.current);
    SinceMeans(states[n], states[i].sinks.current, Swaps(labels, i + 1, n));
  }

  // ------------------------------------------------------------------ when a swap can still come

  lemma SwapNeedsDial(s: State, l: Label, t: State)
    requires Follows(s, l, t) && s.shared.closed
    ensures One(IsSwap(l)) + One(Progress.Dials(t.reader.pc, true)) <= One(Progress.Dials(s.reader.pc, true))
    ensures t.shared.closed
  {
  }

  lemma SwapNeedsDialAt(states: seq<State>, labels: seq<Label>, i: nat)
    requires IsSegment(states, labels) && i < |labels| && states[i].shared.closed
    ensures One(IsSwap(labels[i])) + One(Progress.Dials(states[i + 1].reader.pc, true))
            <= One(Progress.Dials(states[i].reader.pc, true))
    ensures states[i + 1].shared.closed
  {
    FollowsAt(states, labels, i);
    SwapNeedsDial(states[i], labels[i], states[i + 1]);
  }

  /** At most one, and only if a dial was under way or past its check when the flag was set. */
  lemma {:induction false} SwapsAfterClosed(states: seq<State>, labels: seq<Label>, lo: nat, hi: nat)
    requires IsSegment(states, labels) && lo <= hi <= |labels| && states[lo].shared.closed
    ensures states[hi].shared.closed
    ensures Swaps(labels, lo, hi) + One(Progress.Dials(states[hi].reader.pc, true))
            <= One(Progress.Dials(states[lo].reader.pc, true))
    decreases hi
  {
    if lo < hi {
      SwapsAfterClosed(states, labels, lo, hi - 1);
      SwapNeedsDialAt(states, labels, hi - 1);
    }
  }

  /** A continuation of `disconnect`'s last step that leaves an open sink in place. */
  ghost predicate LeavesSinkOpen(s: State, states: seq<State>, labels: seq<Label>) {
    && IsSegment(states, labels) && labels != [] && labels[0] == Client(DisconnectDone) && states[0] == s
    && !SinkIsClosed(states[|labels|])
  }

  lemma OpenNeedsDial(s: State, states: seq<State>, labels: seq<Label>)
    requires Shutdown.Inv(s) && SinksInv(s.sinks) && s.shared.closed && LeavesSinkOpen(s, states, labels)
    ensures Progress.Dials(s.reader.pc, true)
  {
    ClosedIffNotSwapped(states, labels, 0, |labels|);
    DoneClosesAt(states, labels, 0);
    SwapsAfterClosed(states, labels, 1, |labels|);
  }

  /** A read-loop step of a dial, which concerns nobody else. */
  lemma DialStep(s: State, l: ReaderLabel) returns (t: State)
    requires ReaderGuard(s.reader.pc, l, s.now) && (l.BeginDial? || l.DialSucceeded?)
    ensures Follows(s, Read(l), t) && t.subs == s.subs
    ensures t.reader.pc == if l.BeginDial? then Dialing else SwapSink
  {
    t := Step(s, Read(l));
  }

  lemma SwapStep(s: State) returns (t: State)
    requires s.reader.pc.SwapSink? && s.subs.phase.Quiet?
    ensures Follows(s, Read(SwapIn), t)
  {
    t := Step(s, Read(SwapIn));
  }

  lemma DoneStep(s: State) returns (t: State)
    requires s.shared.closer.ClosingSink?
    ensures Follows(s, Client(DisconnectDone), t) && t.subs == s.subs && t.reader.pc == s.reader.pc
  {
    t := Step(s, Client(DisconnectDone));
  }

  /** The rest of the dial: up to and including the swap. */
  lemma FinishDial(s: State) returns (states: seq<State>, labels: seq<Label>)
    requires Progress.Dials(s.reader.pc, true) && s.subs.phase.Quiet?
    ensures IsSegment(states, labels) && states[0] == s && labels != [] && IsSwap(labels[|labels| - 1])
    ensures forall i :: 0 <= i < |labels| ==> labels[i] != Client(DisconnectDone)
    decreases if s.reader.pc.StartDial? then 2 else if s.reader.pc.Dialing? then 1 else 0
  {
    if s.reader.pc.SwapSink? {
      var t := SwapStep(s);
      states, labels := [s, t], [Read(SwapIn)];
    } else {
      var l := if s.reader.pc.StartDial? then BeginDial else DialSucceeded;
      var t := DialStep(s, l);
      var rest, more := FinishDial(t);
      states, labels := [s] + rest, [Read(l)] + more;
      Prepend(s, Read(l), rest, more);
    }
  }

  lemma Prepend(s: State, l: Label, states: seq<State>, labels: seq<Label>)
    requires IsSegment(states, labels) && Follows(s, l, states[0])
    ensures IsSegment([s] + states, [l] + labels)
  {
    var states', labels' := [s] + states, [l] + labels;
    forall i | 0 <= i < |labels'|
      ensures Follows(states'[i], labels'[i], states'[i + 1])
    {
      if i > 0 {
        FollowsAt(states, labels, i - 1);
      }
    }
  }

  lemma {:induction false} LastSwapCounts(labels: seq<Label>, lo: nat)
    requires lo < |labels| && IsSwap(labels[|labels| - 1])
    ensures Swaps(labels, lo, |labels|) > 0
  {
  }

  lemma DialLeavesSinkOpen(s: State) returns (states: seq<State>, labels: seq<Label>)
    requires Shutdown.Inv(s) && SinksInv(s.sinks) && s.shared.closer.ClosingSink? && Progress.Dials(s.reader.pc, true)
    ensures LeavesSinkOpen(s, states, labels)
  {
    var t := DoneStep(s);
    var rest, more := FinishDial(t);
    states, labels := [s] + rest, [Client(DisconnectDone)] + more;
    Prepend(s, Client(DisconnectDone), rest, more);
    LastSwapCounts(labels, 1);
    ClosedIffNotSwapped(states, labels, 0, |labels|);
  }

  /**
   `disconnect` is documented to close the transport. Exactly when it may leave an open one behind: from a
   state in which it is about to close the sink, some continuation ends with an open sink in place if and
   only if a dial is under way there.
   */
  lemma OpenSinkIffDialUnderWay(s: State)
    requires Shutdown.Inv(s) && SinksInv(s.sinks) && s.shared.closer.ClosingSink?
    ensures (exists states, labels :: LeavesSinkOpen(s, states, labels)) <==> Progress.Dials(s.reader.pc, true)
  {
    if Progress.Dials(s.reader.pc, true) {
      var states, labels := DialLeavesSinkOpen(s);
    }
    forall states, labels | LeavesSinkOpen(s, states, labels)
      ensures Progress.Dials(s.reader.pc, true)
    {
      OpenNeedsDial(s, states, labels);
    }
  }

  // ------------------------------------------------------------------ a run in which it happens

  /** A step that concerns none of the components. */
  predicate IsPlain(l: Label) {
    || l.Tick? || l.Client?
    || (l.Read? && (l.r.RecvEnd? || l.r.Decide? || l.r.BeginBackoff? || l.r.TimerReady? || l.r.CheckBeforeDial?
                    || l.r.BeginDial?))
  }

  lemma PlainStep(s: State, l: Label) returns (t: State)
    requires IsPlain(l) && Guard(s, l)
    ensures Follows(s, l, t)
    ensures t.cfg == s.cfg && t.subs == s.subs && t.shared == NextShared(s.shared, l)
    ensures t.now == s.now + if l.Tick? then l.elapsed else 0
    ensures t.reader.pc == if l.Read? then NextPc(s.cfg, s.now, s.shared, s.reader, l.r, true) else s.reader.pc
  {
    t := Step(s, l);
  }

  lemma ClearStep(s: State) returns (t: State)
    requires s.reader.pc.ClearPongs?
    ensures Follows(s, Read(ClearOnRedial), t)
    ensures t.cfg == s.cfg && t.subs == s.subs && t.shared == s.shared && t.reader.pc == StartBackoff
  {
    t := Step(s, Read(ClearOnRedial));
  }

  ghost predicate Reaches(s: State, states: seq<State>, labels: seq<Label>, t: State) {
    IsSegment(states, labels) && states[0] == s && states[|labels|] == t
  }

  lemma Append(s: State, states: seq<State>, labels: seq<Label>, t: State, l: Label, u: State)
    requires Reaches(s, states, labels, t) && Follows(t, l, u)
    ensures Reaches(s, states + [u], labels + [l], u)
  {
    var states', labels' := states + [u], labels + [l];
    forall i | 0 <= i < |labels'|
      ensures Follows(states'[i], labels'[i], states'[i + 1])
    {
      if i < |labels| {
        FollowsAt(states, labels, i);
      }
    }
  }

  /** The stream ends and the read loop gets ready to redial. */
  lemma LoseStream(s: State) returns (states: seq<State>, labels: seq<Label>, t: State)
    requires s.reader.pc.PollRecv? && s.cfg.reconnects && !s.shared.closed
    ensures Reaches(s, states, labels, t) && t.cfg == s.cfg && t.shared == s.shared && t.reader.pc == StartBackoff
  {
    var ended := PlainStep(s, Read(RecvEnd));
    var decided := PlainStep(ended, Read(Decide));
    t := ClearStep(decided);
    states, labels := [s], [];
    Append(s, [s], [], s, Read(RecvEnd), ended);
    Append(s, [s] + [ended], [] + [Read(RecvEnd)], ended, Read(Decide), decided);
    Append(s, [s] + [ended] + [decided], [] + [Read(RecvEnd)] + [Read(Decide)], decided, Read(ClearOnRedial), t);
    states := [s] + [ended] + [decided] + [t];
    labels := [] + [Read(RecvEnd)] + [Read(Decide)] + [Read(ClearOnRedial)];
  }

  lemma WaitOut(s: State) returns (states: seq<State>, labels: seq<Label>, t: State)
    requires s.reader.pc.StartBackoff?
    ensures Reaches(s, states, labels, t) && t.cfg == s.cfg && t.shared == s.shared && t.reader.pc == CheckClosed
  {
    var delay := Backoff.Jittered(s.cfg.backoff, s.reader.attempt, 0);
    var l := Read(BeginBackoff(0, delay));
    var waiting := PlainStep(s, l);
    var late := PlainStep(waiting, Tick(delay));
    t := PlainStep(late, Read(TimerReady));
    Append(s, [s], [], s, l, waiting);
    Append(s, [s] + [waiting], [] + [l], waiting, Tick(delay), late);
    Append(s, [s] + [waiting] + [late], [] + [l] + [Tick(delay)], late, Read(TimerReady), t);
    states, labels := [s] + [waiting] + [late] + [t], [] + [l] + [Tick(delay)] + [Read(TimerReady)];
  }

  lemma StartDialling(s: State) returns (states: seq<State>, labels: seq<Label>, t: State)
    requires s.reader.pc.CheckClosed? && !s.shared.closed
    ensures Reaches(s, states, labels, t) && t.cfg == s.cfg && t.shared == s.shared && t.reader.pc == Dialing
  {
    var checked := PlainStep(s, Read(CheckBeforeDial));
    t := PlainStep(checked, Read(BeginDial));
    Append(s, [s], [], s, Read(CheckBeforeDial), checked);
    Append(s, [s] + [checked], [] + [Read(CheckBeforeDial)], checked, Read(BeginDial), t);
    states, labels := [s] + [checked] + [t], [] + [Read(CheckBeforeDial)] + [Read(BeginDial)];
  }

  lemma StartDisconnecting(s: State) returns (states: seq<State>, labels: seq<Label>, t: State)
    requires !s.shared.closed
    ensures Reaches(s, states, labels, t) && t.shared.closer.ClosingSink? && t.reader.pc == s.reader.pc
  {
    var closed := PlainStep(s, Client(SetClosed));
    var woken := PlainStep(closed, Client(DisconnectWake));
    t := PlainStep(woken, Client(DisconnectChanged));
    Append(s, [s], [], s, Client(SetClosed), closed);
    Append(s, [s] + [closed], [] + [Client(SetClosed)], closed, Client(DisconnectWake), woken);
    Append(s, [s] + [closed] + [woken], [] + [Client(SetClosed)] + [Client(DisconnectWake)],
           woken, Client(DisconnectChanged), t);
    states := [s] + [closed] + [woken] + [t];
    labels := [] + [Client(SetClosed)] + [Client(DisconnectWake)] + [Client(DisconnectChanged)];
  }

  lemma Join(s: State, states: seq<State>, labels: seq<Label>, t: State, states': seq<State>, labels': seq<Label>, u: State)
    requires Reaches(s, states, labels, t) && Reaches(t, states', labels', u)
    ensures Reaches(s, states + states'[1..], labels + labels', u)
  {
    var all, ls := states + states'[1..], labels + labels';
    forall i | 0 <= i < |ls|
      ensures Follows(all[i], ls[i], all[i + 1])
    {
      if i < |labels| {
        FollowsAt(states, labels, i);
      } else {
        FollowsAt(states', labels', i - |labels|);
      }
    }
  }

  /** From any open client with a reconnector that is polling its stream, `disconnect` can come to close the
      sink while a dial is under way. */
  lemma DisconnectWhileDialling(s: State) returns (states: seq<State>, labels: seq<Label>, t: State)
    requires s.reader.pc.PollRecv? && s.cfg.reconnects && !s.shared.closed
    ensures Reaches(s, states, labels, t) && t.reader.pc == Dialing && t.shared.closer.ClosingSink?
  {
    var states0, labels0, lost := LoseStream(s);
    var states1, labels1, waited := WaitOut(lost);
    var states2, labels2, dialling := StartDialling(waited);
    var states3, labels3, u := StartDisconnecting(dialling);
    Join(s, states0, labels0, lost, states1, labels1, waited);
    Join(s, states0 + states1[1..], labels0 + labels1, waited, states2, labels2, dialling);
    Join(s, states0 + states1[1..] + states2[1..], labels0 + labels1 + labels2, dialling, states3, labels3, u);
    states, labels, t := states0 + states1[1..] + states2[1..] + states3[1..], labels0 + labels1 + labels2 + labels3, u;
  }
}
