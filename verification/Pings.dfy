/**
 Outstanding pings: `PongState`, `send_ping_with_timeout`, `forget_ping` and the pong arm of the
 read loop (src/client.rs).

 `State` is the table shared by any number of concurrent pings, the read loop's pong handling and its
 clearing of the table, one step per shared access or lock section. `PongTable` is the table itself,
 with its one-shots as objects; each of its methods takes exactly one step of `State`.
 */
module Pings {
  import opened Prelude
  import opened Signals
  import opened BigEndian

  type PingId = nat

  function NextToken(n: U64): U64 {
    (n + 1) % U64_SPAN
  }

  datatype Outcome = Answered | TimedOut | Transport | Closed

  datatype Pc =
    | Start
    | Register
    | Sending
    | ForgetUnsent
    | PollWaiter
    | PollTimer
    | ForgetLate
    | Returned(outcome: Outcome)
    | Dropped

  /** What registering gives a ping: its token, its place in the order of issue, how many pongs had
      been handled and how often the table had been cleared. */
  datatype Ticket = Ticket(token: U64, index: nat, since: nat, epoch: nat)

  datatype Ping = Ping(pc: Pc, slot: bool, ticket: Option<Ticket>)

  /** `issued` counts every ping ever registered, `epoch` every clearing of the table, and `pongs`
      is every pong payload handled, in order. */
  datatype State = State(
    next: U64, waiters: map<U64, PingId>, pings: map<PingId, Ping>,
    issued: nat, epoch: nat, pongs: seq<seq<Byte>>)

  datatype Label =
    | Begin(p: PingId)
    | CheckClosed(p: PingId, closed: bool)
    | Insert(p: PingId)
    | Sent(p: PingId, ok: bool)
    | ForgetAfterSend(p: PingId)
    | PollSlot(p: PingId)
    | PollDelay(p: PingId, elapsed: bool)
    | ForgetAfterTimeout(p: PingId)
    | Drop(p: PingId)
    | HandlePong(payload: seq<Byte>)
    | Clear

  function Init(): State {
    State(0, map[], map[], 0, 0, [])
  }

  predicate At(s: State, p: PingId, pc: Pc) {
    p in s.pings && s.pings[p].pc == pc
  }

  predicate Suspendable(pc: Pc) {
    pc.Register? || pc.Sending? || pc.ForgetUnsent? || pc.PollWaiter? || pc.ForgetLate?
  }

  predicate Enabled(s: State, l: Label) {
    match l
    case Begin(p) => p !in s.pings
    case CheckClosed(p, _) => At(s, p, Start)
    case Insert(p) => At(s, p, Register)
    case Sent(p, _) => At(s, p, Sending)
    case ForgetAfterSend(p) => At(s, p, ForgetUnsent)
    case PollSlot(p) => At(s, p, PollWaiter)
    case PollDelay(p, _) => At(s, p, PollTimer)
    case ForgetAfterTimeout(p) => At(s, p, ForgetLate)
    case Drop(p) => p in s.pings && Suspendable(s.pings[p].pc)
    case HandlePong(_) => true
    case Clear => true
  }

  function Goto(s: State, p: PingId, pc: Pc): State
    requires p in s.pings
  {
    s.(pings := s.pings[p := s.pings[p].(pc := pc)])
  }

  /** The token a ping forgets on its way out. */
  function OwnTokens(ping: Ping): set<U64> {
    if ping.ticket.Some? then {ping.ticket.value.token} else {}
  }

  function Step(s: State, l: Label): State
    requires Enabled(s, l)
  {
    match l
    case Begin(p) => s.(pings := s.pings[p := Ping(Start, false, None)])
    case CheckClosed(p, closed) => Goto(s, p, if closed then Returned(Closed) else Register)
    case Insert(p) =>
      s.(next := NextToken(s.next), issued := s.issued + 1,
         waiters := s.waiters[s.next := p],
         pings := s.pings[p := s.pings[p].(pc := Sending, ticket := Some(Ticket(s.next, s.issued, |s.pongs|, s.epoch)))])
    case Sent(p, ok) => Goto(s, p, if ok then PollWaiter else ForgetUnsent)
    case ForgetAfterSend(p) =>
      Goto(s.(waiters := s.waiters - OwnTokens(s.pings[p])), p, Returned(Transport))
    case PollSlot(p) =>
      if s.pings[p].slot then s.(pings := s.pings[p := s.pings[p].(slot := false, pc := Returned(Answered))])
      else Goto(s, p, PollTimer)
    case PollDelay(p, elapsed) => Goto(s, p, if elapsed then ForgetLate else PollWaiter)
    case ForgetAfterTimeout(p) =>
      Goto(s.(waiters := s.waiters - OwnTokens(s.pings[p])), p, Returned(TimedOut))
    case Drop(p) => Goto(s, p, Dropped)
    case HandlePong(payload) =>
      var t := s.(pongs := s.pongs + [payload]);
      var token := FromBytes(payload);
      if token.None? || token.value !in s.waiters || s.waiters[token.value] !in s.pings then t
      else
        var p := s.waiters[token.value];
        t.(waiters := s.waiters - {token.value}, pings := s.pings[p := s.pings[p].(slot := true)])
    case Clear => s.(waiters := map[], epoch := s.epoch + 1)
  }

  /** A pong echoing exactly this ping's token arrived after the ping was registered. */
  ghost predicate Echoed(s: State, t: Ticket) {
    exists k :: t.since <= k < |s.pongs| && s.pongs[k] == ToBytes(t.token)
  }

  predicate InFlight(pc: Pc) {
    pc.Sending? || pc.ForgetUnsent? || pc.PollWaiter? || pc.PollTimer? || pc.ForgetLate?
  }

  ghost predicate PingInv(s: State, p: PingId)
    requires p in s.pings
  {
    var ping := s.pings[p];
    && (ping.pc.Start? || ping.pc.Register? ==> ping.ticket.None? && !ping.slot)
    && (InFlight(ping.pc) ==> ping.ticket.Some?)
    && (ping.pc == Returned(Answered) ==> ping.ticket.Some? && Echoed(s, ping.ticket.value))
    && (ping.slot ==> ping.ticket.Some? && Echoed(s, ping.ticket.value))
    && (ping.ticket.Some? ==>
          var t := ping.ticket.value;
          && t.index < s.issued && t.token == t.index % U64_SPAN && t.since <= |s.pongs| && t.epoch <= s.epoch
          // With no token reuse and no clearing since, the table and the slot follow the wire exactly.
          && (InFlight(ping.pc) && t.epoch == s.epoch && s.issued <= U64_SPAN ==>
                && (ping.slot <==> Echoed(s, t))
                && (t.token in s.waiters <==> !Echoed(s, t))))
  }

  ghost predicate WaiterInv(s: State, t: U64)
    requires t in s.waiters
  {
    var p := s.waiters[t];
    && p in s.pings
    && s.pings[p].ticket.Some? && s.pings[p].ticket.value.token == t
    && s.pings[p].ticket.value.epoch == s.epoch
    && !s.pings[p].slot && !s.pings[p].pc.Returned?
  }

  ghost predicate DistinctIndices(s: State) {
    forall p, q :: p in s.pings && q in s.pings && p != q && s.pings[p].ticket.Some? && s.pings[q].ticket.Some?
                   ==> s.pings[p].ticket.value.index != s.pings[q].ticket.value.index
  }

  ghost predicate Inv(s: State) {
    && s.next == s.issued % U64_SPAN
    && DistinctIndices(s)
    && (forall p :: p in s.pings ==> PingInv(s, p))
    && (forall t :: t in s.waiters ==> WaiterInv(s, t))
  }

  /** With fewer than 2^64 pings issued, no two pings ever share a token. */
  lemma TokensDistinct(s: State, p: PingId, q: PingId)
    requires Inv(s) && s.issued <= U64_SPAN
    requires p in s.pings && q in s.pings && p != q
    requires s.pings[p].ticket.Some? && s.pings[q].ticket.Some?
    ensures s.pings[p].ticket.value.token != s.pings[q].ticket.value.token
  {
    assert PingInv(s, p) && PingInv(s, q);
  }

  lemma EchoedSnoc(s: State, payload: seq<Byte>, t: Ticket)
    requires t.since <= |s.pongs|
    ensures Echoed(s.(pongs := s.pongs + [payload]), t) <==> Echoed(s, t) || payload == ToBytes(t.token)
  {
    var s' := s.(pongs := s.pongs + [payload]);
    if Echoed(s, t) {
      var k :| t.since <= k < |s.pongs| && s.pongs[k] == ToBytes(t.token);
      assert s'.pongs[k] == ToBytes(t.token);
    }
    if payload == ToBytes(t.token) {
      assert s'.pongs[|s.pongs|] == ToBytes(t.token);
    }
    if Echoed(s', t) && payload != ToBytes(t.token) {
      var k :| t.since <= k < |s'.pongs| && s'.pongs[k] == ToBytes(t.token);
      assert s.pongs[k] == ToBytes(t.token);
    }
  }

  lemma HandlePongKeepsPing(s: State, payload: seq<Byte>, p: PingId)
    requires Inv(s) && p in s.pings
    ensures PingInv(Step(s, HandlePong(payload)), p)
  {
    var ping, t := s.pings[p], Step(s, HandlePong(payload));
    assert PingInv(s, p);
    if ping.ticket.Some? {
      var ticket := ping.ticket.value;
      EchoedSnoc(s, payload, ticket);
      assert Echoed(t, ticket) <==> Echoed(s, ticket) || payload == ToBytes(ticket.token);
      TokenIffEncoding(payload, ticket.token);
      if ticket.token in s.waiters {
        var q := s.waiters[ticket.token];
        assert WaiterInv(s, ticket.token);
        if q != p && s.issued <= U64_SPAN {
          TokensDistinct(s, p, q);
        }
      }
      var token := FromBytes(payload);
      if token.Some? && token.value in s.waiters && s.waiters[token.value] == p {
        assert WaiterInv(s, token.value);
      }
    }
  }

  lemma HandlePongKeepsInv(s: State, payload: seq<Byte>)
    requires Inv(s)
    ensures Inv(Step(s, HandlePong(payload)))
  {
    var t := Step(s, HandlePong(payload));
    forall p | p in t.pings
      ensures PingInv(t, p)
    {
      HandlePongKeepsPing(s, payload, p);
    }
    forall u | u in t.waiters
      ensures WaiterInv(t, u)
    {
      assert WaiterInv(s, u);
      var token := FromBytes(payload);
      if token.Some? && token.value in s.waiters {
        assert WaiterInv(s, token.value);
      }
    }
  }

  lemma ClearKeepsInv(s: State)
    requires Inv(s)
    ensures Inv(Step(s, Clear))
  {
    var t := Step(s, Clear);
    forall p | p in t.pings
      ensures PingInv(t, p)
    {
      assert PingInv(s, p);
      assert forall k :: Echoed(s, k) <==> Echoed(t, k);
    }
  }

  /** The step of ping `p` changes no other ping and in the table at most the entry at `token`. */
  ghost predicate OwnStep(s: State, t: State, p: PingId, tokens: set<U64>) {
    && t.pongs == s.pongs && t.epoch == s.epoch && s.issued <= t.issued
    && t.pings.Keys == s.pings.Keys + {p}
    && (forall q :: q in s.pings && q != p ==> t.pings[q] == s.pings[q])
    && (forall u :: u in s.waiters && u !in tokens ==> u in t.waiters)
    && (forall u :: u in t.waiters ==> (u in s.waiters && t.waiters[u] == s.waiters[u])
                                       || (u in tokens && t.waiters[u] == p))
  }

  lemma OtherPingKept(s: State, t: State, p: PingId, tokens: set<U64>, q: PingId)
    requires OwnStep(s, t, p, tokens) && q in s.pings && q != p && PingInv(s, q)
    requires t.issued <= U64_SPAN && s.pings[q].ticket.Some? ==> s.pings[q].ticket.value.token !in tokens
    ensures PingInv(t, q)
  {
    assert forall k :: Echoed(s, k) <==> Echoed(t, k);
  }

  /** What a ping's own step has to establish for the whole invariant to survive it. */
  lemma OwnStepKeepsInv(s: State, t: State, p: PingId, tokens: set<U64>)
    requires Inv(s) && OwnStep(s, t, p, tokens)
    requires t.next == t.issued % U64_SPAN && DistinctIndices(t) && PingInv(t, p)
    requires forall q :: q in s.pings && q != p && t.issued <= U64_SPAN && s.pings[q].ticket.Some?
                         ==> s.pings[q].ticket.value.token !in tokens
    requires forall u :: u in t.waiters && t.waiters[u] == p ==> WaiterInv(t, u)
    ensures Inv(t)
  {
    forall q | q in t.pings && q != p
      ensures PingInv(t, q)
    {
      OtherPingKept(s, t, p, tokens, q);
    }
    forall u | u in t.waiters && t.waiters[u] != p
      ensures WaiterInv(t, u)
    {
      assert WaiterInv(s, u);
    }
  }

  /** The tokens whose entries a ping's step may remove. */
  function Released(s: State, l: Label): set<U64> {
    if (l.ForgetAfterSend? || l.ForgetAfterTimeout?) && l.p in s.pings then OwnTokens(s.pings[l.p]) else {}
  }

  predicate IsMove(l: Label) {
    !l.Insert? && !l.HandlePong? && !l.Clear?
  }

  lemma MoveIsOwnStep(s: State, l: Label)
    requires Enabled(s, l) && IsMove(l)
    ensures var t := Step(s, l);
            && OwnStep(s, t, l.p, Released(s, l)) && t.next == s.next && t.issued == s.issued
            && t.pings[l.p].ticket == if l.Begin? then None else s.pings[l.p].ticket
  {
  }

  lemma MoveKeepsPing(s: State, l: Label)
    requires Enabled(s, l) && IsMove(l) && (l.p in s.pings ==> PingInv(s, l.p))
    ensures PingInv(Step(s, l), l.p)
  {
    assert forall k :: Echoed(s, k) <==> Echoed(Step(s, l), k);
  }

  lemma MoveKeepsWaiter(s: State, l: Label, u: U64)
    requires Inv(s) && Enabled(s, l) && IsMove(l)
    requires u in Step(s, l).waiters && Step(s, l).waiters[u] == l.p
    ensures WaiterInv(Step(s, l), u)
  {
    assert WaiterInv(s, u);
    assert PingInv(s, l.p);
  }

  lemma ReleasedIsOwn(s: State, l: Label, q: PingId)
    requires Inv(s) && Enabled(s, l) && IsMove(l)
    requires q in s.pings && q != l.p && s.issued <= U64_SPAN && s.pings[q].ticket.Some?
    ensures s.pings[q].ticket.value.token !in Released(s, l)
  {
    if Released(s, l) != {} {
      TokensDistinct(s, l.p, q);
    }
  }

  lemma DistinctKept(s: State, t: State, p: PingId, tokens: set<U64>)
    requires DistinctIndices(s) && OwnStep(s, t, p, tokens)
    requires t.pings[p].ticket.None? || (p in s.pings && t.pings[p].ticket == s.pings[p].ticket)
    ensures DistinctIndices(t)
  {
  }

  lemma MoveKeepsInv(s: State, l: Label)
    requires Inv(s) && Enabled(s, l) && IsMove(l)
    ensures Inv(Step(s, l))
  {
    MoveIsOwnStep(s, l);
    MoveKeepsPing(s, l);
    var t, p, released := Step(s, l), l.p, Released(s, l);
    DistinctKept(s, t, p, released);
    forall q | q in s.pings && q != p && t.issued <= U64_SPAN && s.pings[q].ticket.Some?
      ensures s.pings[q].ticket.value.token !in released
    {
      ReleasedIsOwn(s, l, q);
    }
    forall u | u in t.waiters && t.waiters[u] == p
      ensures WaiterInv(t, u)
    {
      MoveKeepsWaiter(s, l, u);
    }
    OwnStepKeepsInv(s, t, p, released);
  }

  lemma InsertKeepsPing(s: State, p: PingId)
    requires At(s, p, Register) && PingInv(s, p) && s.next == s.issued % U64_SPAN
    ensures var t := Step(s, Insert(p));
            OwnStep(s, t, p, {s.next}) && PingInv(t, p) && t.next == t.issued % U64_SPAN
  {
    var t := Step(s, Insert(p));
    assert !Echoed(t, t.pings[p].ticket.value);
  }

  lemma InsertIsNew(s: State, q: PingId)
    requires Inv(s) && q in s.pings && s.pings[q].ticket.Some?
    ensures s.pings[q].ticket.value.index < s.issued
    ensures s.issued < U64_SPAN ==> s.pings[q].ticket.value.token != s.next
  {
    assert PingInv(s, q);
  }

  lemma InsertKeepsInv(s: State, p: PingId)
    requires Inv(s) && At(s, p, Register)
    ensures Inv(Step(s, Insert(p)))
  {
    var t := Step(s, Insert(p));
    assert PingInv(s, p);
    InsertKeepsPing(s, p);
    forall q | q in s.pings && s.pings[q].ticket.Some?
      ensures s.pings[q].ticket.value.index < s.issued
      ensures s.issued < U64_SPAN ==> s.pings[q].ticket.value.token != s.next
    {
      InsertIsNew(s, q);
    }
    assert forall u :: u in s.waiters ==> WaiterInv(s, u);
    OwnStepKeepsInv(s, t, p, {s.next});
  }

  lemma StepKeepsInv(s: State, l: Label)
    requires Inv(s) && Enabled(s, l)
    ensures Inv(Step(s, l))
  {
    if l.HandlePong? {
      HandlePongKeepsInv(s, l.payload);
    } else if l.Clear? {
      ClearKeepsInv(s);
    } else if l.Insert? {
      InsertKeepsInv(s, l.p);
    } else {
      MoveKeepsInv(s, l);
    }
  }

  /**
   Exact matching. `send_ping` returns `Ok` only if a pong whose payload is the big-endian
   encoding of its own token was handled after it registered. This needs no bound on the number of
   pings.
   */
  lemma OkMeansOwnPong(s: State, p: PingId)
    requires Inv(s) && At(s, p, Returned(Answered))
    ensures s.pings[p].ticket.Some? && Echoed(s, s.pings[p].ticket.value)
  {
    assert PingInv(s, p);
  }

  /** A pong changes at most the one ping whose token it encodes; timed-out, cleared and unsolicited
      tokens change none. */
  lemma PongTouchesOnlyItsOwner(s: State, payload: seq<Byte>, p: PingId)
    requires Inv(s) && p in s.pings && Step(s, HandlePong(payload)).pings[p] != s.pings[p]
    ensures s.pings[p].ticket.Some? && payload == ToBytes(s.pings[p].ticket.value.token)
    ensures !s.pings[p].pc.Returned?
    ensures s.pings[p].ticket.value.token in s.waiters && s.waiters[s.pings[p].ticket.value.token] == p
  {
    var token := FromBytes(payload).value;
    assert WaiterInv(s, token);
    TokenIffEncoding(payload, token);
  }

  /** A ping whose entry was cleared before its pong came is never answered any more: a pong on a later
      connection cannot resolve it. */
  lemma ClearedPingStaysUnanswered(s: State, l: Label, p: PingId)
    requires Inv(s) && Enabled(s, l) && p in s.pings && s.pings[p].ticket.Some?
    requires s.pings[p].ticket.value.epoch < s.epoch && !s.pings[p].slot && s.pings[p].pc != Returned(Answered)
    ensures var t := Step(s, l);
            && p in t.pings && t.pings[p].ticket == s.pings[p].ticket && t.pings[p].ticket.value.epoch < t.epoch
            && !t.pings[p].slot && t.pings[p].pc != Returned(Answered)
  {
    assert PingInv(s, p);
    if l.HandlePong? && FromBytes(l.payload).Some? && FromBytes(l.payload).value in s.waiters {
      assert WaiterInv(s, FromBytes(l.payload).value);
    }
  }

  /** The next poll of a ping sees an answer exactly when its pong has arrived, provided no redial
      cleared the table since it registered and fewer than 2^64 pings were issued. */
  lemma PollSeesWire(s: State, p: PingId)
    requires Inv(s) && At(s, p, PollWaiter) && s.issued <= U64_SPAN
    ensures s.pings[p].ticket.Some?
    ensures s.pings[p].ticket.value.epoch == s.epoch ==>
              (Step(s, PollSlot(p)).pings[p].pc == Returned(Answered) <==> Echoed(s, s.pings[p].ticket.value))
  {
    assert PingInv(s, p);
  }

  /** No leaked entry: a ping that returned, by any exit, is not in the table. */
  lemma ReturnedLeavesNoEntry(s: State, p: PingId)
    requires Inv(s) && p in s.pings && s.pings[p].pc.Returned?
    ensures p !in s.waiters.Values
  {
    forall t | t in s.waiters
      ensures s.waiters[t] != p
    {
      assert WaiterInv(s, t);
    }
  }

  // ------------------------------------------------------------------ the table object

  /** A step that touches neither the table nor any one-shot. */
  predicate IsPrivate(l: Label) {
    l.CheckClosed? || l.Sent? || l.PollDelay? || l.Drop?
  }

  /**
   `PongState`. `state` is the shared state its methods take steps of, `oneShots` the one-shot each
   ping created. `Valid` says the objects hold what the state says; that every step keeps `Inv` is
   `StepKeepsInv`.
   */
  class PongTable {
    var next: U64
    var waiters: map<U64, Signal<()>>
    ghost var state: State
    ghost var oneShots: map<PingId, Signal<()>>

    ghost predicate Valid()
      reads this, oneShots.Values
    {
      && next == state.next
      && oneShots.Keys == state.pings.Keys
      && (forall p, q :: p in oneShots && q in oneShots && p != q ==> oneShots[p] != oneShots[q])
      && (forall p :: p in oneShots ==> oneShots[p].slot.Some? == state.pings[p].slot)
      && waiters.Keys == state.waiters.Keys
      && (forall t :: t in waiters ==> state.waiters[t] in oneShots && waiters[t] == oneShots[state.waiters[t]])
    }

    constructor ()
      ensures Valid() && state == Init()
    {
      next, waiters, state, oneShots := 0, map[], Init(), map[];
    }

    /** A ping starts and creates its one-shot. */
    method NewWaiter(ghost p: PingId) returns (waiter: Signal<()>)
      requires Valid() && Enabled(state, Begin(p))
      modifies this
      ensures Valid() && state == Step(old(state), Begin(p))
      ensures fresh(waiter) && oneShots == old(oneShots)[p := waiter] && waiters == old(waiters)
    {
      waiter := new Signal();
      oneShots := oneShots[p := waiter];
      state := Step(state, Begin(p));
    }

    ghost method Advance(l: Label)
      requires Valid() && Enabled(state, l) && IsPrivate(l)
      modifies this`state
      ensures Valid() && state == Step(old(state), l)
    {
      state := Step(state, l);
    }

    /** The returned token is the one the ping's ticket records. */
    method Register(ghost p: PingId, waiter: Signal<()>) returns (token: U64)
      requires Valid() && Enabled(state, Insert(p)) && oneShots[p] == waiter
      modifies this`next, this`waiters, this`state
      ensures Valid() && state == Step(old(state), Insert(p))
      ensures state.pings[p].ticket.Some? && token == state.pings[p].ticket.value.token
    {
      token := next;
      next := (next + 1) % U64_SPAN;
      waiters := waiters[token := waiter];
      state := Step(state, Insert(p));
    }

    /** `forget_ping`, on either of the exits that call it. */
    method Forget(ghost p: PingId, token: U64, ghost l: Label)
      requires Valid() && (l == ForgetAfterSend(p) || l == ForgetAfterTimeout(p))
      requires Enabled(state, l) && state.pings[p].ticket.Some? && state.pings[p].ticket.value.token == token
      modifies this`waiters, this`state
      ensures Valid() && state == Step(old(state), l)
    {
      waiters := waiters - {token};
      state := Step(state, l);
    }

    method Clear()
      requires Valid()
      modifies this`waiters, this`state
      ensures Valid() && state == Step(old(state), Label.Clear)
    {
      waiters := map[];
      state := Step(state, Label.Clear);
    }

    /** The waiter side of the race with the timer: an answer is the ping's own pong. */
    method PollWaiter(ghost p: PingId, waiter: Signal<()>) returns (answered: bool)
      requires Valid() && Enabled(state, PollSlot(p)) && oneShots[p] == waiter
      modifies this`state, waiter
      ensures Valid() && state == Step(old(state), PollSlot(p))
      ensures answered <==> state.pings[p].pc == Returned(Answered)
      ensures answered && Inv(old(state)) ==> state.pings[p].ticket.Some? && Echoed(state, state.pings[p].ticket.value)
    {
      if Inv(state) {
        assert PingInv(state, p);
      }
      var token := waiter.Poll();
      answered := token.Some?;
      state := Step(state, PollSlot(p));
    }

    /** The pong arm's lock section: it removes the entry whose token the payload encodes, and no other. */
    method Pong(payload: seq<Byte>)
      requires Valid()
      modifies this`waiters, this`state, oneShots.Values
      ensures Valid() && state == Step(old(state), HandlePong(payload))
      ensures forall t :: t in waiters <==> t in old(waiters) && payload != ToBytes(t)
    {
      forall t: U64
        ensures FromBytes(payload) == Some(t) <==> payload == ToBytes(t)
      {
        TokenIffEncoding(payload, t);
      }
      var token := FromBytes(payload);
      if token.Some? && token.value in waiters {
        var waiter := waiters[token.value];
        assert state.waiters[token.value] in oneShots && waiter in oneShots.Values;
        waiters := waiters - {token.value};
        waiter.Set(());
      }
      state := Step(state, HandlePong(payload));
    }
  }
}
