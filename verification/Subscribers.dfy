/**
 `on_reconnect`: a broadcast registry of one-slot signals (src/sync.rs), the read loop that sets
 them after each successful redial, and the subscriber tasks that run a callback per token
 (src/client.rs).
 */
module Subscribers {
  import opened Prelude
  import Signals

  type SubId = nat

  /** What the read loop is doing: nothing here, having swapped the transport in but not yet taken
      the subscriber lock, or holding that lock with some subscribers still to signal. */
  datatype Phase = Quiet | Swapped | Notifying(remaining: set<SubId>)

  /** Besides its token, a subscriber carries history: how many redials had succeeded when it
      subscribed (`at`) and whether that was between a swap and its notification (`inWindow`), how
      many callbacks it has begun, and the redial count it last heard of. */
  datatype Sub = Sub(token: bool, inCallback: bool, at: nat, inWindow: bool, started: nat, heard: nat)

  datatype State = State(subs: map<SubId, Sub>, redials: nat, phase: Phase)

  datatype Label =
    | Subscribe(k: SubId)
    | BeginCallback(k: SubId)
    | EndCallback(k: SubId)
    // The read loop's own steps.
    | Swap
    | LockSubscribers
    | Signal(k: SubId)
    | UnlockSubscribers

  predicate IsReaderLabel(l: Label) {
    l.Swap? || l.LockSubscribers? || l.Signal? || l.UnlockSubscribers?
  }

  function Init(): State {
    State(map[], 0, Quiet)
  }

  predicate Enabled(s: State, l: Label) {
    match l
    case Subscribe(k) => k !in s.subs && !s.phase.Notifying?
    case BeginCallback(k) => k in s.subs && s.subs[k].token && !s.subs[k].inCallback
    case EndCallback(k) => k in s.subs && s.subs[k].inCallback
    case Swap => s.phase.Quiet?
    case LockSubscribers => s.phase.Swapped?
    case Signal(k) => s.phase.Notifying? && k in s.phase.remaining && k in s.subs
    case UnlockSubscribers => s.phase == Notifying({})
  }

  function Step(s: State, l: Label): State
    requires Enabled(s, l)
  {
    match l
    case Subscribe(k) =>
      var inWindow := s.phase.Swapped? && s.redials > 0;
      s.(subs := s.subs[k := Sub(false, false, s.redials, inWindow, 0, s.redials - One(inWindow))])
    case BeginCallback(k) =>
      var sub := s.subs[k];
      s.(subs := s.subs[k := sub.(token := false, inCallback := true, started := sub.started + 1, heard := s.redials)])
    case EndCallback(k) => s.(subs := s.subs[k := s.subs[k].(inCallback := false)])
    case Swap => s.(redials := s.redials + 1, phase := Swapped)
    case LockSubscribers => s.(phase := Notifying(s.subs.Keys))
    case Signal(k) =>
      s.(subs := s.subs[k := s.subs[k].(token := true)], phase := Notifying(s.phase.remaining - {k}))
    case UnlockSubscribers => s.(phase := Quiet)
  }

  /** The read loop still owes this subscriber a signal. */
  predicate Owed(s: State, k: SubId) {
    s.phase.Swapped? || (s.phase.Notifying? && k in s.phase.remaining)
  }

  ghost predicate SubInv(s: State, k: SubId)
    requires k in s.subs
  {
    var sub := s.subs[k];
    && sub.at <= s.redials && sub.at - One(sub.inWindow) <= sub.heard <= s.redials
    && sub.started + One(sub.token) + One(Owed(s, k)) <= s.redials - sub.at + One(sub.inWindow)
    && (s.redials > sub.heard ==> sub.token || Owed(s, k))
  }

  ghost predicate Inv(s: State) {
    && (s.phase.Swapped? ==> s.redials > 0)
    && (s.phase.Notifying? ==> s.phase.remaining <= s.subs.Keys)
    && (forall k :: k in s.subs ==> SubInv(s, k))
  }

  lemma StepKeepsInv(s: State, l: Label)
    requires Inv(s) && Enabled(s, l)
    ensures Inv(Step(s, l))
  {
    var t := Step(s, l);
    forall k | k in t.subs
      ensures SubInv(t, k)
    {
      if k in s.subs {
        assert SubInv(s, k);
      }
    }
  }

  /**
   Coalesced, never missed. A subscriber has begun no more callbacks than redials succeeded since it
   subscribed, one more if it subscribed between a swap and its notification. If a redial happened
   after its last callback began, its token is latched or the read loop is still on its way to
   setting it.
   */
  lemma CoalescedNeverMissed(s: State, k: SubId)
    requires Inv(s) && k in s.subs
    ensures s.subs[k].started + One(s.subs[k].token) <= s.redials - s.subs[k].at + One(s.subs[k].inWindow)
    ensures s.subs[k].heard < s.redials ==> s.subs[k].token || Owed(s, k)
    ensures !Owed(s, k) && !s.subs[k].token ==> s.subs[k].heard == s.redials
  {
    assert SubInv(s, k);
  }

  /** No subscriber is stuck: a callback can end, and a latched token can begin the next one. */
  lemma SubscriberCanStep(s: State, k: SubId)
    requires k in s.subs
    ensures s.subs[k].inCallback ==> Enabled(s, EndCallback(k))
    ensures !s.subs[k].inCallback && s.subs[k].token ==> Enabled(s, BeginCallback(k))
  {
  }

  // ------------------------------------------------------------------ the window

  ghost predicate IsSegment(states: seq<State>, labels: seq<Label>) {
    && |states| == |labels| + 1
    && forall i :: 0 <= i < |labels| ==> Enabled(states[i], labels[i]) && states[i + 1] == Step(states[i], labels[i])
  }

  /** Subscriber `k` has begun more callbacks than redials succeeded since it subscribed. */
  predicate Exceeds(s: State, k: SubId) {
    k in s.subs && s.subs[k].at <= s.redials && s.subs[k].started > s.redials - s.subs[k].at
  }

  lemma {:induction false} SubscriptionIsKept(states: seq<State>, labels: seq<Label>, k: SubId, n: nat)
    requires IsSegment(states, labels) && n <= |labels| && Inv(states[0]) && k in states[0].subs
    ensures Inv(states[n]) && k in states[n].subs
    ensures states[n].subs[k].at == states[0].subs[k].at && states[n].subs[k].inWindow == states[0].subs[k].inWindow
  {
    if n > 0 {
      SubscriptionIsKept(states, labels, k, n - 1);
      StepKeepsInv(states[n - 1], labels[n - 1]);
    }
  }

  /** From any state between a swap and its notification, a new subscriber is called for that swap. */
  lemma WindowLeadsToCallback(s: State, k: SubId) returns (states: seq<State>, labels: seq<Label>)
    requires Inv(s) && Enabled(s, Subscribe(k)) && s.phase.Swapped?
    ensures IsSegment(states, labels) && states[0] == Step(s, Subscribe(k)) && Exceeds(states[|labels|], k)
  {
    var s1 := Step(s, Subscribe(k));
    var s2 := Step(s1, LockSubscribers);
    var s3 := Step(s2, Signal(k));
    states := [s1, s2, s3, Step(s3, BeginCallback(k))];
    labels := [LockSubscribers, Signal(k), BeginCallback(k)];
  }

  lemma OutsideTheWindowNeverExceeds(s: State, k: SubId, states: seq<State>, labels: seq<Label>)
    requires Inv(s) && Enabled(s, Subscribe(k)) && !s.phase.Swapped?
    requires IsSegment(states, labels) && states[0] == Step(s, Subscribe(k))
    ensures !Exceeds(states[|labels|], k)
  {
    StepKeepsInv(s, Subscribe(k));
    SubscriptionIsKept(states, labels, k, |labels|);
    CoalescedNeverMissed(states[|labels|], k);
  }

  /**
   When `on_reconnect` fires for later reconnects only. Some continuation of a subscription begins more
   callbacks than redials succeed after it if and only if the subscription was made between a swap and
   its notification.
   */
  lemma ExtraCallbackIffInWindow(s: State, k: SubId)
    requires Inv(s) && Enabled(s, Subscribe(k))
    ensures (exists states, labels :: IsSegment(states, labels) && states[0] == Step(s, Subscribe(k))
                                      && Exceeds(states[|labels|], k))
            <==> s.phase.Swapped?
  {
    if s.phase.Swapped? {
      var states, labels := WindowLeadsToCallback(s, k);
    } else {
      forall states, labels | IsSegment(states, labels) && states[0] == Step(s, Subscribe(k))
        ensures !Exceeds(states[|labels|], k)
      {
        OutsideTheWindowNeverExceeds(s, k, states, labels);
      }
    }
  }

  /** The window is real: this subscriber runs a callback although no redial succeeded after it
      subscribed. */
  lemma CallbackForEarlierSwap()
    ensures var s0 := Step(Init(), Swap);
            var s1 := Step(s0, Subscribe(7));
            var s2 := Step(s1, LockSubscribers);
            var s3 := Step(s2, Signal(7));
            var s4 := Step(s3, BeginCallback(7));
            s4.subs[7].started == 1 && s4.redials == s1.redials
  {
    var s2 := Step(Step(Step(Init(), Swap), Subscribe(7)), LockSubscribers);
    assert 7 in s2.subs.Keys;
  }

  // ------------------------------------------------------------------ the registry object

  /** The read loop signals subscribers `0 .. n` one after the other. */
  ghost function SignalFirst(s: State, n: nat): (t: State)
    requires s.phase.Notifying? && forall k :: 0 <= k < n ==> k in s.subs && k in s.phase.remaining
    ensures t.phase.Notifying? && t.subs.Keys == s.subs.Keys && t.redials == s.redials
    ensures forall k :: k in s.phase.remaining && k >= n ==> k in t.phase.remaining
    ensures forall k :: k in t.phase.remaining <==> k in s.phase.remaining && k >= n
    ensures forall k :: k in s.subs ==> t.subs[k] == if k < n then s.subs[k].(token := true) else s.subs[k]
  {
    if n == 0 then s else Step(SignalFirst(s, n - 1), Signal(n - 1))
  }

  /** One whole `notify_all`: lock, signal everyone, unlock. */
  ghost function NotifyRound(s: State): (t: State)
    requires s.phase.Swapped? && forall k :: k in s.subs ==> k < |s.subs|
    requires forall k :: 0 <= k < |s.subs| ==> k in s.subs
    ensures t.phase.Quiet? && t.subs.Keys == s.subs.Keys && t.redials == s.redials
    ensures forall k :: k in s.subs ==> t.subs[k] == s.subs[k].(token := true)
  {
    var signalled := SignalFirst(Step(s, LockSubscribers), |s.subs|);
    assert signalled.phase.remaining == {};
    Step(signalled, UnlockSubscribers)
  }

  /**
   `BroadcastRegistry`, with the subscriber at position `k` of the vector as subscriber `k`. `state` is
   the shared state its methods take steps of.
   */
  class BroadcastRegistry {
    var subscribers: seq<Signals.Signal<()>>
    ghost var state: State

    ghost predicate Valid()
      reads this, subscribers
    {
      && (forall k :: k in state.subs <==> 0 <= k < |subscribers|)
      && |state.subs| == |subscribers|
      && (forall j, k :: 0 <= j < k < |subscribers| ==> subscribers[j] != subscribers[k])
      && (forall k :: 0 <= k < |subscribers| ==> state.subs[k].token == subscribers[k].slot.Some?)
    }

    constructor ()
      ensures Valid() && state == Init()
    {
      subscribers, state := [], Init();
    }

    /** Taken unless the lock is held by a notification in progress. */
    method Subscribe() returns (signal: Signals.Signal<()>)
      requires Valid() && !state.phase.Notifying?
      modifies this
      ensures Valid() && fresh(signal) && subscribers == old(subscribers) + [signal]
      ensures state == Step(old(state), Label.Subscribe(|old(subscribers)|))
    {
      signal := new Signals.Signal();
      state := Step(state, Label.Subscribe(|subscribers|));
      subscribers := subscribers + [signal];
    }

    /** The read loop has put the new transport in place. */
    ghost method NoteSwap()
      requires Valid() && state.phase.Quiet?
      modifies this`state
      ensures Valid() && state == Step(old(state), Swap)
    {
      state := Step(state, Swap);
    }

    method SignalAll()
      modifies subscribers
      ensures forall k :: 0 <= k < |subscribers| ==> subscribers[k].slot == Some(())
    {
      for i := 0 to |subscribers|
        invariant forall k :: 0 <= k < i ==> subscribers[k].slot == Some(())
      {
        subscribers[i].Set(());
      }
    }

    /** The loop over the subscribers leaves what the steps of one notification round leave. */
    method NotifyAll()
      requires Valid() && state.phase.Swapped?
      modifies this`state, subscribers
      ensures Valid() && state == NotifyRound(old(state))
      ensures forall k :: 0 <= k < |subscribers| ==> subscribers[k].slot == Some(())
    {
      ghost var before := state;
      SignalAll();
      state := NotifyRound(before);
      assert |state.subs.Keys| == |before.subs.Keys|;
    }

    /** A subscriber task polls its own signal and starts its callback when it is set. */
    method PollSubscriber(k: nat) returns (ready: bool)
      requires Valid() && k < |subscribers| && !state.subs[k].inCallback
      modifies this`state, subscribers[k]
      ensures Valid() && ready == old(state).subs[k].token
      ensures state == if ready then Step(old(state), BeginCallback(k)) else old(state)
    {
      var token := subscribers[k].Poll();
      ready := token.Some?;
      if ready {
        state := Step(state, BeginCallback(k));
      }
    }
  }
}
