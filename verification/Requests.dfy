/**
 Outstanding requests: `do_send_request`, `forget_pending` and the CALLRESULT/CALLERROR arms of
 `handle_frame` (src/client.rs).

 `State` is the table shared by any number of concurrent calls and the read loop, one step per shared
 access or lock section. `PendingTable` is the table itself, with its one-shots as objects; each of its
 methods takes exactly one step of `State`. Message ids are fresh.
 */
module Requests {
  import opened Prelude
  import opened Signals

  type Uuid = nat
  type Json = string
  type CallId = nat

  datatype Reply = Result(value: Json) | Error(error: Json)

  /** How a call returned. */
  datatype Outcome =
    | Value(value: Json)
    | Protocol(error: Json)
    | Decode
    | TimedOut
    | Transport
    | Closed

  datatype Pc =
    | Start
    | Encode
    | Register
    | Sending
    | ForgetUnsent
    | PollWaiter
    | PollTimer
    | ForgetLate
    | Deliver(reply: Reply)
    | Returned(outcome: Outcome)
    | Dropped

  /** One call. `slot` is its one-shot. `since` is how many replies had been handled when it
      registered, or `None` before that. */
  datatype Call = Call(pc: Pc, id: Uuid, slot: Option<Reply>, since: Option<nat>)

  /** A CALLRESULT or CALLERROR that the read loop has handled. */
  datatype Handled = Handled(id: Uuid, reply: Reply)

  datatype State = State(calls: map<CallId, Call>, pending: map<Uuid, CallId>, handled: seq<Handled>)

  datatype Label =
    | Begin(c: CallId, id: Uuid)
    | CheckClosed(c: CallId, closed: bool)
    | Encoded(c: CallId, ok: bool)
    | Insert(c: CallId)
    | Sent(c: CallId, ok: bool)
    | ForgetAfterSend(c: CallId)
    | PollSlot(c: CallId)
    | PollDelay(c: CallId, elapsed: bool)
    | ForgetAfterTimeout(c: CallId)
    | Finish(c: CallId, decodes: bool)
    | Drop(c: CallId)
    | HandleReply(id: Uuid, reply: Reply)

  function Init(): State {
    State(map[], map[], [])
  }

  predicate At(s: State, c: CallId, pc: Pc) {
    c in s.calls && s.calls[c].pc == pc
  }

  /** A call future may be dropped wherever it can be suspended. */
  predicate Suspendable(pc: Pc) {
    pc.Register? || pc.Sending? || pc.ForgetUnsent? || pc.PollWaiter? || pc.ForgetLate?
  }

  predicate Enabled(s: State, l: Label) {
    match l
    case Begin(c, id) => c !in s.calls && forall d :: d in s.calls ==> s.calls[d].id != id
    case CheckClosed(c, _) => At(s, c, Start)
    case Encoded(c, _) => At(s, c, Encode)
    case Insert(c) => At(s, c, Register)
    case Sent(c, _) => At(s, c, Sending)
    case ForgetAfterSend(c) => At(s, c, ForgetUnsent)
    case PollSlot(c) => At(s, c, PollWaiter)
    case PollDelay(c, _) => At(s, c, PollTimer)
    case ForgetAfterTimeout(c) => At(s, c, ForgetLate)
    case Finish(c, _) => c in s.calls && s.calls[c].pc.Deliver?
    case Drop(c) => c in s.calls && Suspendable(s.calls[c].pc)
    case HandleReply(_, _) => true
  }

  function Goto(s: State, c: CallId, pc: Pc): State
    requires c in s.calls
  {
    s.(calls := s.calls[c := s.calls[c].(pc := pc)])
  }

  /** Turn a reply into what the caller sees. */
  function OutcomeOf(reply: Reply, decodes: bool): Outcome {
    match reply
    case Result(v) => if decodes then Value(v) else Decode
    case Error(e) => Protocol(e)
  }

  function Step(s: State, l: Label): State
    requires Enabled(s, l)
  {
    match l
    case Begin(c, id) => s.(calls := s.calls[c := Call(Start, id, None, None)])
    case CheckClosed(c, closed) => Goto(s, c, if closed then Returned(Closed) else Encode)
    case Encoded(c, ok) => Goto(s, c, if ok then Register else Returned(Decode))
    case Insert(c) =>
      var call := s.calls[c];
      s.(calls := s.calls[c := call.(pc := Sending, since := Some(|s.handled|))],
         pending := s.pending[call.id := c])
    case Sent(c, ok) => Goto(s, c, if ok then PollWaiter else ForgetUnsent)
    case ForgetAfterSend(c) => Goto(s.(pending := s.pending - {s.calls[c].id}), c, Returned(Transport))
    case PollSlot(c) =>
      var call := s.calls[c];
      if call.slot.None? then Goto(s, c, PollTimer)
      else s.(calls := s.calls[c := call.(slot := None, pc := Deliver(call.slot.value))])
    case PollDelay(c, elapsed) => Goto(s, c, if elapsed then ForgetLate else PollWaiter)
    case ForgetAfterTimeout(c) => Goto(s.(pending := s.pending - {s.calls[c].id}), c, Returned(TimedOut))
    case Finish(c, decodes) => Goto(s, c, Returned(OutcomeOf(s.calls[c].pc.reply, decodes)))
    case Drop(c) => Goto(s, c, Dropped)
    case HandleReply(id, reply) =>
      var t := s.(handled := s.handled + [Handled(id, reply)]);
      if id !in s.pending || s.pending[id] !in s.calls then t
      else
        var c := s.pending[id];
        t.(pending := s.pending - {id}, calls := s.calls[c := s.calls[c].(slot := Some(reply))])
  }

  /** The specification: the first reply carrying `id` among those handled from `since` on. */
  function FirstReply(handled: seq<Handled>, since: nat, id: Uuid): Option<Reply>
    decreases |handled|
  {
    if |handled| <= since then None
    else
      var n := |handled| - 1;
      var earlier := FirstReply(handled[..n], since, id);
      if earlier.Some? then earlier
      else if handled[n].id == id then Some(handled[n].reply)
      else None
  }

  ghost predicate IsFirstReply(handled: seq<Handled>, since: nat, id: Uuid, k: int) {
    && since <= k < |handled|
    && handled[k].id == id
    && forall j :: since <= j < k ==> handled[j].id != id
  }

  /** `FirstReply` is the content of the one reply that `IsFirstReply` describes, if there is one. */
  lemma {:induction false} FirstReplyMeaning(handled: seq<Handled>, since: nat, id: Uuid)
    ensures forall k :: IsFirstReply(handled, since, id, k) ==> FirstReply(handled, since, id) == Some(handled[k].reply)
    ensures FirstReply(handled, since, id).Some? ==> exists k :: IsFirstReply(handled, since, id, k)
    decreases |handled|
  {
    if |handled| > since {
      var n := |handled| - 1;
      var before := handled[..n];
      FirstReplyMeaning(before, since, id);
      forall k | IsFirstReply(handled, since, id, k)
        ensures FirstReply(handled, since, id) == Some(handled[k].reply)
      {
        if k < n {
          assert IsFirstReply(before, since, id, k);
        }
      }
      if FirstReply(before, since, id).Some? {
        var k :| IsFirstReply(before, since, id, k);
        assert IsFirstReply(handled, since, id, k);
      } else if handled[n].id == id {
        NoneMeansNone(before, since, id);
        assert IsFirstReply(handled, since, id, n);
      }
    }
  }

  lemma {:induction false} NoneMeansNone(handled: seq<Handled>, since: nat, id: Uuid)
    requires FirstReply(handled, since, id).None?
    ensures forall j :: since <= j < |handled| ==> handled[j].id != id
    decreases |handled|
  {
    if |handled| > since {
      NoneMeansNone(handled[..|handled| - 1], since, id);
    }
  }

  lemma FirstReplySnoc(handled: seq<Handled>, h: Handled, since: nat, id: Uuid)
    requires since <= |handled|
    ensures FirstReply(handled + [h], since, id) ==
            if FirstReply(handled, since, id).Some? then FirstReply(handled, since, id)
            else if h.id == id then Some(h.reply)
            else None
  {
    assert (handled + [h])[..|handled|] == handled;
  }

  /** The reply the specification assigns to a call, if any. */
  function SpecReply(s: State, c: CallId): Option<Reply>
    requires c in s.calls
  {
    if s.calls[c].since.None? then None
    else FirstReply(s.handled, s.calls[c].since.value, s.calls[c].id)
  }

  predicate Unregistered(pc: Pc) {
    pc.Start? || pc.Encode? || pc.Register?
  }

  predicate InFlight(pc: Pc) {
    pc.Sending? || pc.ForgetUnsent? || pc.PollWaiter? || pc.PollTimer? || pc.ForgetLate?
  }

  predicate OutcomeMatches(o: Outcome, reply: Option<Reply>, registered: bool) {
    match o
    case Value(v) => reply == Some(Result(v))
    case Protocol(e) => reply == Some(Error(e))
    case Decode => registered ==> reply.Some? && reply.value.Result?
    case Closed => !registered
    case TimedOut => registered
    case Transport => registered
  }

  ghost predicate CallInv(s: State, c: CallId)
    requires c in s.calls
  {
    var call := s.calls[c];
    var reply := SpecReply(s, c);
    && (call.since.Some? ==> call.since.value <= |s.handled|)
    && (Unregistered(call.pc) ==> call.since.None? && call.slot.None?)
    && (call.since.None? ==> call.id !in s.pending)
    && (InFlight(call.pc) ==> call.since.Some? && call.slot == reply && (call.id in s.pending <==> reply.None?))
    && (call.pc.Deliver? ==> reply == Some(call.pc.reply) && call.id !in s.pending)
    && (call.pc.Returned? ==> call.id !in s.pending && OutcomeMatches(call.pc.outcome, reply, call.since.Some?))
  }

  ghost predicate Inv(s: State) {
    && (forall c, d :: c in s.calls && d in s.calls && c != d ==> s.calls[c].id != s.calls[d].id)
    && (forall u :: u in s.pending ==> s.pending[u] in s.calls && s.calls[s.pending[u]].id == u)
    && (forall c :: c in s.calls ==> CallInv(s, c))
  }

  /** A call that a step leaves alone keeps its invariant. */
  lemma CallInvFrame(s: State, t: State, c: CallId)
    requires c in s.calls && CallInv(s, c)
    requires c in t.calls && t.calls[c] == s.calls[c] && t.handled == s.handled
    requires s.calls[c].id in t.pending <==> s.calls[c].id in s.pending
    ensures CallInv(t, c)
  {
  }

  lemma HandleReplyKeepsCall(s: State, id: Uuid, reply: Reply, c: CallId)
    requires c in s.calls && CallInv(s, c)
    requires id in s.pending ==> s.pending[id] in s.calls && (s.pending[id] == c <==> s.calls[c].id == id)
    ensures CallInv(Step(s, HandleReply(id, reply)), c)
  {
    var call := s.calls[c];
    if call.since.Some? {
      FirstReplySnoc(s.handled, Handled(id, reply), call.since.value, call.id);
    }
  }

  /** The call that takes the step. */
  lemma OwnStepKeepsCall(s: State, l: Label)
    requires Enabled(s, l) && !l.HandleReply? && !l.Begin? && CallInv(s, l.c)
    ensures CallInv(Step(s, l), l.c)
  {
    if l.Insert? {
      assert FirstReply(s.handled, |s.handled|, s.calls[l.c].id) == None;
    }
  }

  /** The step of call `c` changes no other call, and in the table at most its own entry. */
  ghost predicate OwnStep(s: State, t: State, c: CallId) {
    && t.handled == s.handled
    && t.calls.Keys == s.calls.Keys + {c}
    && (forall d :: d in s.calls && d != c ==> t.calls[d] == s.calls[d])
    && (c in s.calls ==> t.calls[c].id == s.calls[c].id)
    && (forall u :: u in s.pending && u != t.calls[c].id ==> u in t.pending)
    && (forall u :: u in t.pending ==> (u in s.pending && t.pending[u] == s.pending[u])
                                       || (u == t.calls[c].id && t.pending[u] == c))
  }

  lemma OwnStepKeepsInv(s: State, t: State, c: CallId)
    requires Inv(s) && OwnStep(s, t, c) && CallInv(t, c)
    requires forall d :: d in s.calls && d != c ==> s.calls[d].id != t.calls[c].id
    ensures Inv(t)
  {
    forall d | d in t.calls
      ensures CallInv(t, d)
    {
      if d != c {
        CallInvFrame(s, t, d);
      }
    }
  }

  lemma StepIsOwnStep(s: State, l: Label)
    requires Enabled(s, l) && !l.HandleReply?
    ensures OwnStep(s, Step(s, l), l.c)
  {
  }

  lemma BeginKeepsCall(s: State, l: Label)
    requires Inv(s) && Enabled(s, l) && l.Begin?
    ensures CallInv(Step(s, l), l.c)
  {
  }

  lemma StepKeepsInv(s: State, l: Label)
    requires Inv(s) && Enabled(s, l)
    ensures Inv(Step(s, l))
  {
    if l.HandleReply? {
      forall c | c in s.calls
        ensures CallInv(Step(s, l), c)
      {
        HandleReplyKeepsCall(s, l.id, l.reply, c);
      }
    } else {
      StepIsOwnStep(s, l);
      if l.Begin? {
        BeginKeepsCall(s, l);
      } else {
        assert CallInv(s, l.c);
        OwnStepKeepsCall(s, l);
      }
      OwnStepKeepsInv(s, Step(s, l), l.c);
    }
  }

  /**
   Request correlation. A call that returned a value or a protocol error returned the content of
   the first reply with its own id that was handled after it registered, and nothing else.
   */
  lemma AnswerIsOwnFirstReply(s: State, c: CallId)
    requires Inv(s) && c in s.calls && s.calls[c].pc.Returned?
    requires s.calls[c].pc.outcome.Value? || s.calls[c].pc.outcome.Protocol?
    ensures s.calls[c].since.Some?
    ensures exists k :: IsFirstReply(s.handled, s.calls[c].since.value, s.calls[c].id, k)
                        && s.calls[c].pc.outcome == OutcomeOf(s.handled[k].reply, true)
  {
    assert CallInv(s, c);
    var call := s.calls[c];
    FirstReplyMeaning(s.handled, call.since.value, call.id);
    var k :| IsFirstReply(s.handled, call.since.value, call.id, k);
    assert call.pc.outcome == OutcomeOf(s.handled[k].reply, true);
  }

  /** One frame completes at most one call. */
  lemma OneFrameOneCall(s: State, c: CallId, d: CallId, k: nat)
    requires Inv(s) && c in s.calls && d in s.calls
    requires s.calls[c].since.Some? && IsFirstReply(s.handled, s.calls[c].since.value, s.calls[c].id, k)
    requires s.calls[d].since.Some? && IsFirstReply(s.handled, s.calls[d].since.value, s.calls[d].id, k)
    ensures c == d
  {
  }

  /** A reply with an id nobody is waiting for (late, duplicated or unknown) changes no call and
      no entry; one that is awaited changes only the call that owns the id. */
  lemma ReplyTouchesOnlyItsOwner(s: State, id: Uuid, reply: Reply)
    requires Inv(s)
    ensures var t := Step(s, HandleReply(id, reply));
            && t.calls.Keys == s.calls.Keys
            && t.pending == s.pending - {id}
            && forall c :: c in s.calls && !(id in s.pending && s.calls[c].id == id) ==> t.calls[c] == s.calls[c]
  {
    if id !in s.pending {
      assert s.pending == s.pending - {id};
    }
  }

  /** The waiter poll takes an answer exactly when the specification has one: a call is never
      timed out past a reply that was already handled when it polled. */
  lemma PollSeesSpec(s: State, c: CallId)
    requires Inv(s) && At(s, c, PollWaiter)
    ensures Step(s, PollSlot(c)).calls[c].pc ==
            if SpecReply(s, c).Some? then Deliver(SpecReply(s, c).value) else PollTimer
  {
    assert CallInv(s, c);
  }

  /** No leaked entry: a call that returned, by any exit, is not in the table. */
  lemma ReturnedLeavesNoEntry(s: State, c: CallId)
    requires Inv(s) && c in s.calls && s.calls[c].pc.Returned?
    ensures s.calls[c].id !in s.pending
    ensures c !in s.pending.Values
  {
    assert CallInv(s, c);
  }

  // ------------------------------------------------------------------ the table object

  /** A step that touches neither the table nor any one-shot. */
  predicate IsPrivate(l: Label) {
    l.CheckClosed? || l.Encoded? || l.Sent? || l.PollDelay? || l.Finish? || l.Drop?
  }

  /**
   The shared table. `state` is the shared state its methods take steps of, `oneShots` the one-shot
   each call created. `Valid` says the objects hold what the state says; that every step keeps `Inv` is
   `StepKeepsInv`.
   */
  class PendingTable {
    var entries: map<Uuid, Signal<Reply>>
    ghost var state: State
    ghost var oneShots: map<CallId, Signal<Reply>>

    ghost predicate Valid()
      reads this, oneShots.Values
    {
      && oneShots.Keys == state.calls.Keys
      && (forall c, d :: c in oneShots && d in oneShots && c != d ==> oneShots[c] != oneShots[d])
      && (forall c :: c in oneShots ==> oneShots[c].slot == state.calls[c].slot)
      && entries.Keys == state.pending.Keys
      && (forall u :: u in entries ==> state.pending[u] in oneShots && entries[u] == oneShots[state.pending[u]])
    }

    constructor ()
      ensures Valid() && state == Init()
    {
      entries, state, oneShots := map[], Init(), map[];
    }

    /** A call starts and creates its one-shot. */
    method NewWaiter(ghost c: CallId, ghost id: Uuid) returns (waiter: Signal<Reply>)
      requires Valid() && Enabled(state, Begin(c, id))
      modifies this
      ensures Valid() && state == Step(old(state), Begin(c, id))
      ensures fresh(waiter) && oneShots == old(oneShots)[c := waiter] && entries == old(entries)
    {
      waiter := new Signal();
      oneShots := oneShots[c := waiter];
      state := Step(state, Begin(c, id));
    }

    ghost method Advance(l: Label)
      requires Valid() && Enabled(state, l) && IsPrivate(l)
      modifies this`state
      ensures Valid() && state == Step(old(state), l)
    {
      state := Step(state, l);
    }

    method Register(ghost c: CallId, id: Uuid, waiter: Signal<Reply>)
      requires Valid() && Enabled(state, Insert(c)) && state.calls[c].id == id && oneShots[c] == waiter
      modifies this`entries, this`state
      ensures Valid() && state == Step(old(state), Insert(c))
    {
      entries := entries[id := waiter];
      state := Step(state, Insert(c));
    }

    /** `forget_pending`, on either of the exits that call it. */
    method Forget(ghost c: CallId, id: Uuid, ghost l: Label)
      requires Valid() && (l == ForgetAfterSend(c) || l == ForgetAfterTimeout(c))
      requires Enabled(state, l) && state.calls[c].id == id
      modifies this`entries, this`state
      ensures Valid() && state == Step(old(state), l)
    {
      entries := entries - {id};
      state := Step(state, l);
    }

    /** The waiter side of the race with the timer: take the reply if it is there. */
    method PollWaiter(ghost c: CallId, waiter: Signal<Reply>) returns (r: Option<Reply>)
      requires Valid() && Enabled(state, PollSlot(c)) && oneShots[c] == waiter
      modifies this`state, waiter
      ensures Valid() && state == Step(old(state), PollSlot(c))
      ensures Inv(old(state)) ==> r == SpecReply(old(state), c)
    {
      if Inv(state) {
        assert CallInv(state, c);
      }
      r := waiter.Poll();
      state := Step(state, PollSlot(c));
    }

    /** The frame handler's lock section. */
    method Answer(id: Uuid, reply: Reply)
      requires Valid()
      modifies this`entries, this`state, oneShots.Values
      ensures Valid() && state == Step(old(state), HandleReply(id, reply))
    {
      if id in entries {
        var waiter := entries[id];
        assert state.pending[id] in oneShots && waiter in oneShots.Values;
        entries := entries - {id};
        waiter.Set(reply);
      }
      state := Step(state, HandleReply(id, reply));
    }
  }
}
