/**
 Lock discipline of the client: which shared mutex every routine of src/client.rs and src/sync.rs takes,
 in which order, and where user callbacks run. Any number of tasks run any routines, and a user callback
 may itself run any of them.

 A write through the sink holds the sink's mutex. On the embassy transport it takes the decoder's mutex of
 its connection inside that, which the read loop takes on its own for each piece it decodes; this is the
 only pair of mutexes ever held together.
 */
module Locks {
  import opened Prelude

  datatype LockId =
    | Sink
    | Decoder(connection: nat)
    | PendingTable
    | PongTable
    | RequestRegistry
    | NotificationRegistry
    | Queue(c: nat)
    | PingSubscribers
    | ReconnectSubscribers

  /** `Work` is anything done without touching a mutex, including awaiting the transport. */
  datatype Op = Acquire(lock: LockId) | Release(lock: LockId) | Work | Callback

  /** What a write goes through: a transport without a mutex of its own, or the embassy transport. */
  datatype Transport = Plain | Embassy(connection: nat)

  /** The straight-line paths through the source between two points at which no lock is held. */
  datatype Routine =
    | ReadPiece(connection: nat)
    | HandleCall(c: nat)
    | HandleUnknownCall(via: Transport)
    | HandleReply
    | HandleSend(c: nat)
    | HandleUnknownSend
    | HandlePing(via: Transport)
    | HandlePong
    | ClearPongs
    | CourtesyClose(via: Transport)
    | SwapInSink
    | NotifyReconnect
    | RegisterRequest
    | WriteFrame(via: Transport)
    | ForgetRequest
    | RegisterPing
    | ForgetPing
    | RegisterHandler
    | RegisterNotification
    | Receive(c: nat)
    | RunHandler(via: Transport)
    | WaitForRemoval
    | SubscribePing
    | SubscribeReconnect
    | RunSubscriber
    | Disconnect(via: Transport)

  function Section(l: LockId): seq<Op> {
    [Acquire(l), Work, Release(l)]
  }

  /** One write, ping, pong or close through the sink. */
  function Write(via: Transport): seq<Op> {
    match via
    case Plain => Section(Sink)
    case Embassy(k) => [Acquire(Sink)] + (Section(Decoder(k)) + [Work, Release(Sink)])
  }

  function Body(r: Routine): seq<Op> {
    match r
    case ReadPiece(k) => [Work] + Section(Decoder(k))
    case HandleCall(c) => Section(RequestRegistry) + Section(Queue(c)) + [Work]
    case HandleUnknownCall(via) => Section(RequestRegistry) + Write(via)
    case HandleReply => Section(PendingTable)
    case HandleSend(c) => Section(NotificationRegistry) + Section(Queue(c)) + [Work]
    case HandleUnknownSend => Section(NotificationRegistry)
    case HandlePing(via) => Section(PingSubscribers) + Write(via)
    case HandlePong => Section(PongTable)
    case ClearPongs => Section(PongTable)
    case CourtesyClose(via) => Write(via)
    case SwapInSink => Section(Sink)
    case NotifyReconnect => Section(ReconnectSubscribers)
    case RegisterRequest => Section(PendingTable)
    case WriteFrame(via) => Write(via)
    case ForgetRequest => Section(PendingTable)
    case RegisterPing => Section(PongTable)
    case ForgetPing => Section(PongTable)
    case RegisterHandler => Section(RequestRegistry) + [Work]
    case RegisterNotification => Section(NotificationRegistry) + [Work]
    case Receive(c) => Section(Queue(c)) + [Work]
    case RunHandler(via) => [Callback] + Write(via)
    case WaitForRemoval => Section(RequestRegistry)
    case SubscribePing => Section(PingSubscribers)
    case SubscribeReconnect => Section(ReconnectSubscribers)
    case RunSubscriber => [Work, Callback]
    case Disconnect(via) => [Work] + Write(via)
  }

  /** Which mutex may be taken while holding `held`, the latest last: any while holding none, and a
      decoder's while holding the sink's. */
  predicate MayTake(held: seq<LockId>, l: LockId) {
    held == [] || (held == [Sink] && l.Decoder?)
  }

  /** Starting with `held`, the operations take only what they may, release the latest they took, call back
      only when holding none, and end holding none. */
  predicate Disciplined(held: seq<LockId>, ops: seq<Op>)
    decreases |ops|
  {
    if ops == [] then held == []
    else
      match ops[0]
      case Acquire(l) => MayTake(held, l) && Disciplined(held + [l], ops[1..])
      case Release(l) => held != [] && held[|held| - 1] == l && Disciplined(held[..|held| - 1], ops[1..])
      case Work => Disciplined(held, ops[1..])
      case Callback => held == [] && Disciplined(held, ops[1..])
  }

  /** What is held after an operation. */
  function After(held: seq<LockId>, op: Op): seq<LockId> {
    match op
    case Acquire(l) => held + [l]
    case Release(_) => if held == [] then [] else held[..|held| - 1]
    case _ => held
  }

  lemma {:induction false} DisciplinedAppend(held: seq<LockId>, a: seq<Op>, b: seq<Op>)
    requires Disciplined(held, a) && Disciplined([], b)
    ensures Disciplined(held, a + b)
    decreases |a|
  {
    if a == [] {
      assert a + b == b;
    } else {
      assert (a + b)[1..] == a[1..] + b;
      DisciplinedAppend(After(held, a[0]), a[1..], b);
    }
  }

  /** Taking and releasing one mutex around disciplined operations. */
  lemma {:induction false} DisciplinedStep(held: seq<LockId>, op: Op, ops: seq<Op>)
    requires op.Acquire? ==> MayTake(held, op.lock)
    requires op.Release? ==> held != [] && held[|held| - 1] == op.lock
    requires op.Callback? ==> held == []
    requires Disciplined(After(held, op), ops)
    ensures Disciplined(held, [op] + ops)
  {
    assert ([op] + ops)[1..] == ops;
  }

  /** A section in front of what is disciplined with the same mutexes held. */
  lemma SectionInside(held: seq<LockId>, l: LockId, ops: seq<Op>)
    requires MayTake(held, l) && Disciplined(held, ops)
    ensures Disciplined(held, Section(l) + ops)
  {
    assert (held + [l])[..|held|] == held;
    DisciplinedStep(held + [l], Release(l), ops);
    DisciplinedStep(held + [l], Work, [Release(l)] + ops);
    DisciplinedStep(held, Acquire(l), [Work] + ([Release(l)] + ops));
    assert [Acquire(l)] + ([Work] + ([Release(l)] + ops)) == Section(l) + ops;
  }

  lemma SectionDisciplined(l: LockId)
    ensures Disciplined([], Section(l))
  {
    SectionInside([], l, []);
    assert Section(l) + [] == Section(l);
  }

  lemma ReleaseSink()
    ensures Disciplined([Sink], [Work, Release(Sink)])
  {
    assert [Sink][..0] == [];
    DisciplinedStep([Sink], Release(Sink), []);
    assert [Release(Sink)] + [] == [Release(Sink)];
    DisciplinedStep([Sink], Work, [Release(Sink)]);
    assert [Work] + [Release(Sink)] == [Work, Release(Sink)];
  }

  lemma WriteDisciplined(via: Transport)
    ensures Disciplined([], Write(via))
  {
    if via.Embassy? {
      ReleaseSink();
      SectionInside([Sink], Decoder(via.connection), [Work, Release(Sink)]);
      assert [] + [Sink] == [Sink];
      DisciplinedStep([], Acquire(Sink), Section(Decoder(via.connection)) + [Work, Release(Sink)]);
    } else {
      SectionDisciplined(Sink);
    }
  }

  lemma FreeOps()
    ensures Disciplined([], [Work]) && Disciplined([], [Callback]) && Disciplined([], [Work, Callback])
  {
    assert [Work][1..] == [] && [Callback][1..] == [] && [Work, Callback][1..] == [Callback];
  }

  lemma SectionThen(l: LockId, ops: seq<Op>)
    requires Disciplined([], ops)
    ensures Disciplined([], Section(l) + ops)
  {
    SectionInside([], l, ops);
  }

  lemma OpThen(op: Op, ops: seq<Op>)
    requires (op.Work? || op.Callback?) && Disciplined([], ops)
    ensures Disciplined([], [op] + ops)
  {
    DisciplinedStep([], op, ops);
  }

  lemma DispatchDisciplined(l: LockId, c: nat)
    ensures Disciplined([], Section(l) + Section(Queue(c)) + [Work])
  {
    FreeOps();
    SectionThen(Queue(c), [Work]);
    SectionThen(l, Section(Queue(c)) + [Work]);
    assert Section(l) + (Section(Queue(c)) + [Work]) == Section(l) + Section(Queue(c)) + [Work];
  }

  /** The routines that write through the sink. */
  lemma WriterDisciplined(r: Routine)
    requires r.HandleUnknownCall? || r.HandlePing? || r.CourtesyClose? || r.WriteFrame? || r.RunHandler? || r.Disconnect?
    ensures Disciplined([], Body(r))
  {
    WriteDisciplined(r.via);
    match r
    case HandleUnknownCall(via) => SectionThen(RequestRegistry, Write(via));
    case HandlePing(via) => SectionThen(PingSubscribers, Write(via));
    case RunHandler(via) => OpThen(Callback, Write(via));
    case Disconnect(via) => OpThen(Work, Write(via));
    case _ =>
  }

  /** Every routine of the client is disciplined. */
  lemma EveryRoutineDisciplined(r: Routine)
    ensures Disciplined([], Body(r))
  {
    FreeOps();
    match r
    case ReadPiece(k) =>
      SectionDisciplined(Decoder(k));
      OpThen(Work, Section(Decoder(k)));
    case HandleCall(c) => DispatchDisciplined(RequestRegistry, c);
    case HandleSend(c) => DispatchDisciplined(NotificationRegistry, c);
    case HandleUnknownCall(_) => WriterDisciplined(r);
    case HandlePing(_) => WriterDisciplined(r);
    case CourtesyClose(_) => WriterDisciplined(r);
    case WriteFrame(_) => WriterDisciplined(r);
    case RunHandler(_) => WriterDisciplined(r);
    case Disconnect(_) => WriterDisciplined(r);
    case RegisterHandler => SectionThen(RequestRegistry, [Work]);
    case RegisterNotification => SectionThen(NotificationRegistry, [Work]);
    case Receive(c) => SectionThen(Queue(c), [Work]);
    case RunSubscriber =>
    case _ => SectionDisciplined(Body(r)[0].lock);
  }

  // ------------------------------------------------------------------ any number of tasks

  type TaskId = nat

  /** `holders` says who holds each locked mutex; a task is the operations it has left. */
  datatype State = State(holders: map<LockId, TaskId>, tasks: map<TaskId, seq<Op>>)

  datatype Label =
    | Begin(t: TaskId, r: Routine)
    // A user callback calls the client.
    | BeginInCallback(t: TaskId, r: Routine)
    | Next(t: TaskId)
    // A dropped future gives its lock back.
    | Abort(t: TaskId)

  function HeldBy(s: State, t: TaskId): set<LockId> {
    set l | l in s.holders && s.holders[l] == t
  }

  predicate Enabled(s: State, l: Label) {
    match l
    case Begin(t, _) => t !in s.tasks || s.tasks[t] == []
    case BeginInCallback(t, _) => t in s.tasks && s.tasks[t] != [] && s.tasks[t][0].Callback?
    case Next(t) =>
      && t in s.tasks && s.tasks[t] != []
      && (s.tasks[t][0].Acquire? ==> s.tasks[t][0].lock !in s.holders)
    case Abort(t) => t in s.tasks
  }

  function Step(s: State, l: Label): State
    requires Enabled(s, l)
  {
    match l
    case Begin(t, r) => s.(tasks := s.tasks[t := Body(r)])
    case BeginInCallback(t, r) => s.(tasks := s.tasks[t := Body(r) + s.tasks[t]])
    case Next(t) =>
      var op, moved := s.tasks[t][0], s.tasks[t := s.tasks[t][1..]];
      (match op
       case Acquire(k) => State(s.holders[k := t], moved)
       case Release(k) => State(s.holders - {k}, moved)
       case _ => State(s.holders, moved))
    case Abort(t) => State(s.holders - HeldBy(s, t), s.tasks[t := []])
  }

  /** What a task holds, the latest last. */
  ghost predicate Holds(s: State, t: TaskId, held: seq<LockId>) {
    HeldBy(s, t) == (set l | l in held)
  }

  /** The stacks of mutexes the discipline lets arise. */
  predicate IsStack(held: seq<LockId>) {
    |held| <= 1 || (|held| == 2 && held[0] == Sink && held[1].Decoder?)
  }

  ghost predicate TaskInv(s: State, t: TaskId)
    requires t in s.tasks
  {
    exists held :: IsStack(held) && Holds(s, t, held) && Disciplined(held, s.tasks[t])
  }

  ghost predicate Inv(s: State) {
    && (forall l :: l in s.holders ==> s.holders[l] in s.tasks)
    && (forall t :: t in s.tasks ==> TaskInv(s, t))
  }

  lemma HeldAfter(s: State, t: TaskId, held: seq<LockId>)
    requires Enabled(s, Next(t)) && IsStack(held) && Holds(s, t, held) && Disciplined(held, s.tasks[t])
    ensures var s', held' := Step(s, Next(t)), After(held, s.tasks[t][0]);
            IsStack(held') && Holds(s', t, held') && Disciplined(held', s'.tasks[t])
  {
    var op, s' := s.tasks[t][0], Step(s, Next(t));
    var held' := After(held, op);
    match op
    case Acquire(k) =>
      assert HeldBy(s', t) == HeldBy(s, t) + {k};
    case Release(k) =>
      assert held == held' + [k];
      assert k !in held';
      assert HeldBy(s', t) == HeldBy(s, t) - {k};
    case _ =>
      assert HeldBy(s', t) == HeldBy(s, t);
  }

  lemma OwnNextKeepsTask(s: State, t: TaskId)
    requires Inv(s) && Enabled(s, Next(t))
    ensures TaskInv(Step(s, Next(t)), t)
  {
    var held :| IsStack(held) && Holds(s, t, held) && Disciplined(held, s.tasks[t]);
    HeldAfter(s, t, held);
  }

  lemma CallbackKeepsTask(s: State, t: TaskId, r: Routine)
    requires Inv(s) && Enabled(s, BeginInCallback(t, r))
    ensures TaskInv(Step(s, BeginInCallback(t, r)), t)
  {
    var held :| IsStack(held) && Holds(s, t, held) && Disciplined(held, s.tasks[t]);
    EveryRoutineDisciplined(r);
    DisciplinedAppend([], Body(r), s.tasks[t]);
    assert Holds(Step(s, BeginInCallback(t, r)), t, []);
  }

  lemma OtherTaskKept(s: State, l: Label, u: TaskId)
    requires Inv(s) && Enabled(s, l) && u in s.tasks && u != l.t
    ensures u in Step(s, l).tasks && TaskInv(Step(s, l), u)
  {
    var held :| IsStack(held) && Holds(s, u, held) && Disciplined(held, s.tasks[u]);
    var s' := Step(s, l);
    if l.Next? {
      var mine :| IsStack(mine) && Holds(s, l.t, mine) && Disciplined(mine, s.tasks[l.t]);
      var op := s.tasks[l.t][0];
      if op.Release? {
        assert op.lock in HeldBy(s, l.t);
      }
    }
    assert HeldBy(s', u) == HeldBy(s, u);
    assert Holds(s', u, held);
  }

  lemma IdleHoldsNothing(s: State, t: TaskId)
    requires Inv(s)
    ensures t !in s.tasks || s.tasks[t] == [] ==> HeldBy(s, t) == {}
  {
    if t in s.tasks {
      var held :| IsStack(held) && Holds(s, t, held) && Disciplined(held, s.tasks[t]);
    }
  }

  lemma StepKeepsInv(s: State, l: Label)
    requires Inv(s) && Enabled(s, l)
    ensures Inv(Step(s, l))
  {
    var s' := Step(s, l);
    forall u | u in s'.tasks
      ensures TaskInv(s', u)
    {
      if u != l.t {
        OtherTaskKept(s, l, u);
      } else if l.Next? {
        OwnNextKeepsTask(s, u);
      } else if l.BeginInCallback? {
        CallbackKeepsTask(s, l.t, l.r);
      } else {
        if l.Begin? {
          EveryRoutineDisciplined(l.r);
        }
        IdleHoldsNothing(s, l.t);
        assert Holds(s', u, []);
        assert Disciplined([], s'.tasks[u]);
      }
    }
  }

  ghost predicate IsRun(states: seq<State>, labels: seq<Label>) {
    && |states| == |labels| + 1
    && states[0] == State(map[], map[])
    && forall i :: 0 <= i < |labels| ==> Enabled(states[i], labels[i]) && states[i + 1] == Step(states[i], labels[i])
  }

  lemma {:induction false} RunKeepsInv(states: seq<State>, labels: seq<Label>, i: nat)
    requires IsRun(states, labels) && i < |states|
    ensures Inv(states[i])
  {
    if i > 0 {
      RunKeepsInv(states, labels, i - 1);
      StepKeepsInv(states[i - 1], labels[i - 1]);
    }
  }

  /** Waiting for a mutex somebody holds. */
  predicate Blocked(s: State, t: TaskId) {
    t in s.tasks && s.tasks[t] != [] && s.tasks[t][0].Acquire? && s.tasks[t][0].lock in s.holders
  }

  /** Who holds the mutex a blocked task waits for. */
  function Owner(s: State, t: TaskId): TaskId
    requires Blocked(s, t)
  {
    s.holders[s.tasks[t][0].lock]
  }

  lemma OwnerIsAnother(s: State, t: TaskId)
    requires Inv(s) && Blocked(s, t)
    ensures Owner(s, t) in s.tasks && Owner(s, t) != t
    ensures Blocked(s, Owner(s, t)) ==> s.tasks[Owner(s, t)][0].lock.Decoder? && !s.tasks[t][0].lock.Decoder?
    ensures !Blocked(s, Owner(s, t)) ==> Enabled(s, Next(Owner(s, t)))
  {
    var held :| IsStack(held) && Holds(s, t, held) && Disciplined(held, s.tasks[t]);
    var lock, owner := s.tasks[t][0].lock, Owner(s, t);
    assert lock in HeldBy(s, owner);
    var owned :| IsStack(owned) && Holds(s, owner, owned) && Disciplined(owned, s.tasks[owner]);
    assert lock in owned;
  }

  /**
   No lock deadlock, in every reachable state of any number of tasks. A task holds at most two shared
   mutexes, then the sink's and a decoder's, and none while a user callback runs. Whoever holds the mutex a
   blocked task waits for is another task; it can take its own next step, or it waits for a decoder's mutex
   whose holder can, so no chain of waiting is longer than two.
   */
  lemma NoDeadlock(states: seq<State>, labels: seq<Label>, i: nat, t: TaskId)
    requires IsRun(states, labels) && i < |states| && t in states[i].tasks
    ensures var held := HeldBy(states[i], t);
            || |held| <= 1
            || exists k :: held == {Sink, Decoder(k)}
    ensures states[i].tasks[t] != [] && states[i].tasks[t][0].Callback? ==> HeldBy(states[i], t) == {}
    ensures Blocked(states[i], t) ==>
              var owner := Owner(states[i], t);
              && owner != t && owner in states[i].tasks
              && if Blocked(states[i], owner) then Enabled(states[i], Next(Owner(states[i], owner)))
                 else Enabled(states[i], Next(owner))
  {
    RunKeepsInv(states, labels, i);
    var s := states[i];
    var held: seq<LockId> :| IsStack(held) && Holds(s, t, held) && Disciplined(held, s.tasks[t]);
    if |held| == 2 {
      assert HeldBy(s, t) == {Sink, Decoder(held[1].connection)};
    } else if |held| == 1 {
      assert HeldBy(s, t) == {held[0]};
    }
    if Blocked(s, t) {
      OwnerIsAnother(s, t);
      if Blocked(s, Owner(s, t)) {
        OwnerIsAnother(s, Owner(s, t));
      }
    }
  }
}
