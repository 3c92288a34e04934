/**
 A handler registry, the channels it maps actions to and the tasks that drain them: `on`,
 `on_notification`, `wait_for`, `do_send_response` and the CALL/SEND arms of `handle_frame`
 (src/client.rs).

 The request registry answers what it receives, the notification registry never does; `answers`
 says which one a state is. A registration is several steps under the registry lock: insert, then
 store `closed` in the channel it replaced, then signal it. The read loop looks a channel up under
 that lock but pushes after releasing it, so a push may land on a channel that was closed since.
 */
module Handlers {
  import opened Prelude
  import Channel

  type ChanId = nat

  /** An inbound CALL or SEND. */
  datatype Frame = Frame(id: string, action: string)

  /** A queued frame: its message id and which inbound frame it is. */
  datatype Item = Item(occurrence: nat, id: string)

  datatype Reply = Reply(occurrence: nat, id: string)

  /** `Handler` is a task spawned by `on` or `on_notification`, `Waiter` a `wait_for` call. */
  datatype Kind = Handler | Waiter

  datatype Work = NotSpawned | InRecv | Working(item: Item) | Removing | Ended | Dropped

  datatype Receiver = Receiver(kind: Kind, action: string, work: Work)

  /** Who holds the registry lock in the middle of a registration. */
  datatype Lock = Free | Retiring(c: ChanId) | Announcing(c: ChanId)

  datatype Reader =
    | Idle
    | Looking(item: Item, action: string)
    | Found(c: ChanId, item: Item)
    | Pushed(c: ChanId)
    | Unhandled(item: Item)

  /** Where an inbound frame is. Every frame is in exactly one place. */
  datatype Place = AtReader | InChan(c: ChanId) | AtTask(c: ChanId) | Replied | Lost

  datatype State = State(
    answers: bool,
    registry: map<string, ChanId>,
    lock: Lock,
    chans: map<ChanId, Channel.Sys<Item>>,
    receivers: map<ChanId, Receiver>,
    reader: Reader,
    inbound: seq<Frame>,
    places: seq<Place>,
    replies: seq<Reply>)

  datatype Label =
    | Insert(kind: Kind, action: string, c: ChanId)
    | CloseReplaced
    | SignalReplaced
    | Spawn(c: ChanId)
    | Pop(c: ChanId)
    | LoadClosed(c: ChanId)
    | TakeSignal(c: ChanId)
    | Finish(c: ChanId, replies: bool)
    | TimeOut(c: ChanId)
    | Remove(c: ChanId)
    | DropWaiter(c: ChanId)
    // The read loop's own steps.
    | Arrive(frame: Frame)
    | Lookup
    | PushItem
    | SignalItem
    | Reject(replies: bool)

  predicate IsReaderLabel(l: Label) {
    l.Arrive? || l.Lookup? || l.PushItem? || l.SignalItem? || l.Reject?
  }

  function Init(answers: bool): State {
    State(answers, map[], Free, map[], map[], Idle, [], [], [])
  }

  predicate Doing(s: State, c: ChanId, work: Work) {
    c in s.receivers && c in s.chans && s.receivers[c].work == work
  }

  predicate Mapped(s: State, c: ChanId) {
    c in s.receivers && s.receivers[c].action in s.registry && s.registry[s.receivers[c].action] == c
  }

  /** Who may take the step, and when. */
  predicate Guard(s: State, l: Label) {
    match l
    case Insert(_, _, c) => s.lock.Free? && c !in s.chans && c !in s.receivers
    case CloseReplaced => s.lock.Retiring?
    case SignalReplaced => s.lock.Announcing?
    case Spawn(c) => Doing(s, c, NotSpawned)
    case Pop(c) => Doing(s, c, InRecv)
    case LoadClosed(c) => Doing(s, c, InRecv)
    case TakeSignal(c) => Doing(s, c, InRecv)
    case Finish(c, _) => c in s.receivers && s.receivers[c].work.Working?
    case TimeOut(c) => Doing(s, c, InRecv) && s.receivers[c].kind.Waiter?
    case Remove(c) => Doing(s, c, Removing) && s.receivers[c].kind.Waiter? && s.lock.Free?
    case DropWaiter(c) =>
      && c in s.receivers && s.receivers[c].kind.Waiter?
      && (Doing(s, c, Removing) || Doing(s, c, InRecv) || s.receivers[c].work.Working?)
    case Arrive(_) => s.reader.Idle?
    case Lookup => s.reader.Looking? && s.lock.Free?
    case PushItem => s.reader.Found?
    case SignalItem => s.reader.Pushed?
    case Reject(_) => s.reader.Unhandled?
  }

  /** The one channel a step touches, and how. Closing a replaced channel takes no queue lock. */
  function ChannelStep(s: State, l: Label): Option<(ChanId, Channel.Label<Item>)>
    requires Guard(s, l)
  {
    match l
    case CloseReplaced => Some((s.lock.c, Channel.StoreClosed))
    case SignalReplaced => Some((s.lock.c, Channel.SignalClose))
    case Spawn(c) => Some((c, Channel.CallRecv))
    case Pop(c) => Some((c, Channel.PopFront))
    case LoadClosed(c) => Some((c, Channel.LoadClosed))
    case TakeSignal(c) => Some((c, Channel.TakeSignal))
    case Finish(c, _) => if s.receivers[c].kind.Handler? then Some((c, Channel.CallRecv)) else None
    case TimeOut(c) => Some((c, Channel.DropRecv))
    case DropWaiter(c) => if s.receivers[c].work.InRecv? then Some((c, Channel.DropRecv)) else None
    case PushItem => Some((s.reader.c, Channel.Push(s.reader.item)))
    case SignalItem => Some((s.reader.c, Channel.SignalSend))
    case _ => None
  }

  /** The one frame a step moves, and where it is before. */
  function Moved(s: State, l: Label): Option<(Item, Place)>
    requires Guard(s, l)
  {
    match l
    case Pop(c) => if s.chans[c].queue == [] then None else Some((s.chans[c].queue[0], InChan(c)))
    case Finish(c, _) => Some((s.receivers[c].work.item, AtTask(c)))
    case DropWaiter(c) => if s.receivers[c].work.Working? then Some((s.receivers[c].work.item, AtTask(c))) else None
    case PushItem => Some((s.reader.item, AtReader))
    case Reject(_) => Some((s.reader.item, AtReader))
    case _ => None
  }

  predicate Enabled(s: State, l: Label) {
    && Guard(s, l)
    && (var on := ChannelStep(s, l);
        on.Some? ==> on.value.0 in s.chans && Channel.Enabled(s.chans[on.value.0], on.value.1))
    && (Moved(s, l).Some? ==> Moved(s, l).value.0.occurrence < |s.places|)
  }

  /** Whether a step answers the frame it moves. A frame goes unanswered when its reply cannot be
      encoded, when `wait_for` cannot decode it, and always in the notification registry. */
  predicate Answers(s: State, l: Label) {
    s.answers && (l.Finish? || l.Reject?) && l.replies
  }

  function NewPlace(s: State, l: Label): Place
    requires Guard(s, l)
  {
    match l
    case Pop(c) => AtTask(c)
    case PushItem => InChan(s.reader.c)
    case _ => if Answers(s, l) then Replied else Lost
  }

  function NewInbound(s: State, l: Label): seq<Frame> {
    if l.Arrive? then s.inbound + [l.frame] else s.inbound
  }

  function NewPlaces(s: State, l: Label): seq<Place>
    requires Enabled(s, l)
  {
    var moved := Moved(s, l);
    if l.Arrive? then s.places + [AtReader]
    else if moved.Some? then s.places[moved.value.0.occurrence := NewPlace(s, l)]
    else s.places
  }

  function NewReplies(s: State, l: Label): seq<Reply>
    requires Enabled(s, l)
  {
    if Answers(s, l) then
      var item := Moved(s, l).value.0;
      s.replies + [Reply(item.occurrence, item.id)]
    else s.replies
  }

  function NewRegistry(s: State, l: Label): map<string, ChanId>
    requires Guard(s, l)
  {
    match l
    case Insert(_, action, c) => s.registry[action := c]
    case Remove(c) => if Mapped(s, c) then s.registry - {s.receivers[c].action} else s.registry
    case _ => s.registry
  }

  function NewLock(s: State, l: Label): Lock
    requires Guard(s, l)
  {
    match l
    case Insert(_, action, _) => if action in s.registry then Retiring(s.registry[action]) else Free
    case CloseReplaced => Announcing(s.lock.c)
    case SignalReplaced => Free
    case _ => s.lock
  }

  function NewChans(s: State, l: Label): map<ChanId, Channel.Sys<Item>>
    requires Enabled(s, l)
  {
    var on := ChannelStep(s, l);
    if l.Insert? then s.chans[l.c := Channel.Fresh()]
    else if on.Some? then s.chans[on.value.0 := Channel.Step(s.chans[on.value.0], on.value.1)]
    else s.chans
  }

  /** What a receiver does next. */
  function NewWork(s: State, l: Label): Option<(ChanId, Work)>
    requires Guard(s, l)
  {
    match l
    case Spawn(c) => Some((c, InRecv))
    case Pop(c) => if s.chans[c].queue == [] then None else Some((c, Working(s.chans[c].queue[0])))
    case LoadClosed(c) =>
      if !s.chans[c].closed then None
      else Some((c, if s.receivers[c].kind.Handler? then Ended else Removing))
    case Finish(c, _) => Some((c, if s.receivers[c].kind.Handler? then InRecv else Removing))
    case TimeOut(c) => Some((c, Removing))
    case Remove(c) => Some((c, Ended))
    case DropWaiter(c) => Some((c, Dropped))
    case _ => None
  }

  function NewReceivers(s: State, l: Label): map<ChanId, Receiver>
    requires Guard(s, l)
  {
    var next := NewWork(s, l);
    if l.Insert? then s.receivers[l.c := Receiver(l.kind, l.action, NotSpawned)]
    else if next.Some? then s.receivers[next.value.0 := s.receivers[next.value.0].(work := next.value.1)]
    else s.receivers
  }

  function NewReader(s: State, l: Label): Reader
    requires Guard(s, l)
  {
    match l
    case Arrive(frame) => Looking(Item(|s.inbound|, frame.id), frame.action)
    case Lookup =>
      if s.reader.action in s.registry then Found(s.registry[s.reader.action], s.reader.item)
      else Unhandled(s.reader.item)
    case PushItem => Pushed(s.reader.c)
    case SignalItem => Idle
    case Reject(_) => Idle
    case _ => s.reader
  }

  function Step(s: State, l: Label): State
    requires Enabled(s, l)
  {
    State(
      s.answers,
      NewRegistry(s, l),
      NewLock(s, l),
      NewChans(s, l),
      NewReceivers(s, l),
      NewReader(s, l),
      NewInbound(s, l),
      NewPlaces(s, l),
      NewReplies(s, l))
  }

  // ------------------------------------------------------------------ registrations

  ghost predicate RegistryInv(s: State) {
    && s.chans.Keys == s.receivers.Keys
    && (forall a :: a in s.registry ==>
          var c := s.registry[a];
          c in s.chans && s.receivers[c].action == a && !s.chans[c].closed)
    && (forall c :: c in s.receivers && s.receivers[c].kind.Handler? ==>
          Mapped(s, c) || s.chans[c].closed || s.lock == Retiring(c))
    && (!s.lock.Free? ==> s.lock.c in s.chans && !Mapped(s, s.lock.c))
    && (s.lock.Announcing? ==> s.chans[s.lock.c].closed)
  }

  /** Most steps leave every registration alone. */
  ghost predicate SameRegistrations(s: State, t: State) {
    && t.registry == s.registry && t.lock == s.lock
    && t.chans.Keys == s.chans.Keys && t.receivers.Keys == s.receivers.Keys
    && (forall c :: c in s.chans ==> t.chans[c].closed == s.chans[c].closed)
    && (forall c :: c in s.receivers ==> t.receivers[c].kind == s.receivers[c].kind
                                         && t.receivers[c].action == s.receivers[c].action)
  }

  predicate Registers(l: Label) {
    l.Insert? || l.CloseReplaced? || l.SignalReplaced? || l.Remove?
  }

  lemma OnlyCloseCloses(ch: Channel.Sys<Item>, l: Channel.Label<Item>)
    requires Channel.Enabled(ch, l) && !l.StoreClosed?
    ensures Channel.Step(ch, l).closed == ch.closed
  {
  }

  lemma OtherStepsKeepClosed(s: State, l: Label)
    requires Enabled(s, l) && !Registers(l)
    ensures NewChans(s, l).Keys == s.chans.Keys
    ensures forall c :: c in s.chans ==> NewChans(s, l)[c].closed == s.chans[c].closed
  {
    var on := ChannelStep(s, l);
    if on.Some? {
      OnlyCloseCloses(s.chans[on.value.0], on.value.1);
    }
  }

  lemma OtherStepsKeepRegistrations(s: State, l: Label)
    requires Enabled(s, l) && !Registers(l)
    ensures SameRegistrations(s, Step(s, l))
  {
    OtherStepsKeepClosed(s, l);
  }

  lemma SameRegistrationsKeepInv(s: State, t: State)
    requires RegistryInv(s) && SameRegistrations(s, t)
    ensures RegistryInv(t)
  {
    assert forall c :: Mapped(t, c) <==> Mapped(s, c);
  }

  lemma InsertKeepsRegistryInv(s: State, kind: Kind, action: string, c: ChanId)
    requires RegistryInv(s) && Enabled(s, Insert(kind, action, c))
    ensures RegistryInv(Step(s, Insert(kind, action, c)))
  {
    var t := Step(s, Insert(kind, action, c));
    assert Mapped(t, c);
    forall d | d in s.receivers && Mapped(s, d)
      ensures Mapped(t, d) || t.lock == Retiring(d)
    {
    }
  }

  lemma StepKeepsRegistryInv(s: State, l: Label)
    requires RegistryInv(s) && Enabled(s, l)
    ensures RegistryInv(Step(s, l))
  {
    if l.Insert? {
      InsertKeepsRegistryInv(s, l.kind, l.action, l.c);
    } else if !Registers(l) {
      OtherStepsKeepRegistrations(s, l);
      SameRegistrationsKeepInv(s, Step(s, l));
    }
  }

  // ------------------------------------------------------------------ channels

  ghost predicate WorkInv(work: Work, rx: Channel.Rx<Item>) {
    match work
    case NotSpawned => rx.Idle?
    case InRecv => rx.Checking? || rx.EmptyLocked? || rx.Waiting?
    case Working(_) => rx.Returned?
    case _ => rx.Idle? || rx.Returned?
  }

  /** A spawned task only ever receives, works or ends. */
  ghost predicate KindInv(r: Receiver) {
    r.kind.Handler? ==> !r.work.Removing? && !r.work.Dropped?
  }

  ghost predicate ChanInv(s: State, c: ChanId)
    requires c in s.chans && c in s.receivers
  {
    var ch := s.chans[c];
    && Channel.Inv(ch)
    && ch.unsignalled == (if s.reader == Pushed(c) then 1 else 0)
    && ch.unannounced == (if s.lock == Announcing(c) then 1 else 0)
    && WorkInv(s.receivers[c].work, ch.rx)
    && KindInv(s.receivers[c])
  }

  ghost predicate ChannelsInv(s: State) {
    && s.chans.Keys == s.receivers.Keys
    && forall c :: c in s.chans ==> ChanInv(s, c)
  }

  lemma CounterEffects(ch: Channel.Sys<Item>, l: Channel.Label<Item>)
    requires Channel.Enabled(ch, l)
    ensures Channel.Step(ch, l).unsignalled
         == ch.unsignalled + (if l.Push? then 1 else 0) - (if l.SignalSend? then 1 else 0)
    ensures Channel.Step(ch, l).unannounced
         == ch.unannounced + (if l.StoreClosed? then 1 else 0) - (if l.SignalClose? then 1 else 0)
  {
  }

  lemma StepKeepsUnsignalled(s: State, l: Label, c: ChanId)
    requires c in s.chans && Enabled(s, l)
    requires s.chans[c].unsignalled == (if s.reader == Pushed(c) then 1 else 0)
    ensures NewChans(s, l)[c].unsignalled == (if NewReader(s, l) == Pushed(c) then 1 else 0)
  {
    var on := ChannelStep(s, l);
    if on.Some? {
      CounterEffects(s.chans[on.value.0], on.value.1);
    }
  }

  lemma StepKeepsUnannounced(s: State, l: Label, c: ChanId)
    requires c in s.chans && Enabled(s, l)
    requires s.chans[c].unannounced == (if s.lock == Announcing(c) then 1 else 0)
    ensures NewChans(s, l)[c].unannounced == (if NewLock(s, l) == Announcing(c) then 1 else 0)
  {
    var on := ChannelStep(s, l);
    if on.Some? {
      CounterEffects(s.chans[on.value.0], on.value.1);
    }
  }

  lemma StepKeepsWork(s: State, l: Label, c: ChanId)
    requires c in s.chans && c in s.receivers && Enabled(s, l)
    requires WorkInv(s.receivers[c].work, s.chans[c].rx) && KindInv(s.receivers[c])
    ensures WorkInv(NewReceivers(s, l)[c].work, NewChans(s, l)[c].rx) && KindInv(NewReceivers(s, l)[c])
  {
  }

  lemma StepKeepsChannel(s: State, l: Label, c: ChanId)
    requires c in s.chans && Enabled(s, l) && Channel.Inv(s.chans[c])
    ensures Channel.Inv(NewChans(s, l)[c])
  {
    var on := ChannelStep(s, l);
    if on.Some? && on.value.0 == c {
      Channel.StepKeepsInv(s.chans[c], on.value.1);
    }
  }

  lemma StepKeepsKeys(s: State, l: Label)
    requires s.chans.Keys == s.receivers.Keys && Enabled(s, l)
    ensures NewChans(s, l).Keys == NewReceivers(s, l).Keys == s.chans.Keys + (if l.Insert? then {l.c} else {})
  {
  }

  lemma StepKeepsChannelsInv(s: State, l: Label)
    requires ChannelsInv(s) && Enabled(s, l)
    requires l.Insert? ==> s.reader != Pushed(l.c) && s.lock != Announcing(l.c)
    ensures ChannelsInv(Step(s, l))
  {
    var t := Step(s, l);
    StepKeepsKeys(s, l);
    forall c | c in s.chans
      ensures ChanInv(t, c)
    {
      assert ChanInv(s, c);
      StepKeepsChannel(s, l, c);
      StepKeepsUnsignalled(s, l, c);
      StepKeepsUnannounced(s, l, c);
      StepKeepsWork(s, l, c);
    }
  }

  // ------------------------------------------------------------------ where each frame is

  ghost predicate ItemAt(inbound: seq<Frame>, places: seq<Place>, item: Item, place: Place) {
    && item.occurrence < |places| == |inbound|
    && inbound[item.occurrence].id == item.id
    && places[item.occurrence] == place
  }

  ghost predicate QueueOk(inbound: seq<Frame>, places: seq<Place>, c: ChanId, q: seq<Item>) {
    && (forall i :: 0 <= i < |q| ==> ItemAt(inbound, places, q[i], InChan(c)))
    && (forall i, j :: 0 <= i < j < |q| ==> q[i].occurrence != q[j].occurrence)
  }

  ghost predicate ReaderOk(inbound: seq<Frame>, places: seq<Place>, reader: Reader) {
    reader.Looking? || reader.Found? || reader.Unhandled? ==> ItemAt(inbound, places, reader.item, AtReader)
  }

  ghost predicate TaskOk(inbound: seq<Frame>, places: seq<Place>, c: ChanId, work: Work) {
    work.Working? ==> ItemAt(inbound, places, work.item, AtTask(c))
  }

  ghost predicate RepliesOk(inbound: seq<Frame>, places: seq<Place>, replies: seq<Reply>) {
    && (forall i :: 0 <= i < |replies| ==> ItemAt(inbound, places, Item(replies[i].occurrence, replies[i].id), Replied))
    && (forall i, j :: 0 <= i < j < |replies| ==> replies[i].occurrence != replies[j].occurrence)
  }

  ghost predicate PlacesInv(s: State) {
    && |s.places| == |s.inbound|
    && (forall c :: c in s.chans ==> QueueOk(s.inbound, s.places, c, s.chans[c].queue))
    && (forall c :: c in s.receivers ==> TaskOk(s.inbound, s.places, c, s.receivers[c].work))
    && ReaderOk(s.inbound, s.places, s.reader)
    && RepliesOk(s.inbound, s.places, s.replies)
    && (!s.answers ==> s.replies == [])
  }

  /** The frame a step moves is where the step says it is. */
  ghost predicate MovedIsThere(s: State, l: Label)
    requires Guard(s, l)
  {
    Moved(s, l).Some? ==> ItemAt(s.inbound, s.places, Moved(s, l).value.0, Moved(s, l).value.1)
  }

  lemma StepMovesWhatIsThere(s: State, l: Label)
    requires PlacesInv(s) && Enabled(s, l) && s.chans.Keys == s.receivers.Keys
    ensures MovedIsThere(s, l)
  {
    if l.Pop? {
      assert QueueOk(s.inbound, s.places, l.c, s.chans[l.c].queue);
    } else if l.Finish? || l.DropWaiter? {
      assert TaskOk(s.inbound, s.places, l.c, s.receivers[l.c].work);
    }
  }

  /** A frame that a step does not move stays where it is. */
  lemma ItemStays(s: State, l: Label, item: Item, place: Place)
    requires Enabled(s, l) && ItemAt(s.inbound, s.places, item, place)
    requires Moved(s, l).Some? ==> Moved(s, l).value.0.occurrence != item.occurrence
    ensures ItemAt(NewInbound(s, l), NewPlaces(s, l), item, place)
  {
  }

  lemma QueueAfter(s: State, l: Label, c: ChanId)
    requires Enabled(s, l) && c in s.chans
    ensures NewChans(s, l)[c].queue ==
            if l.PushItem? && s.reader.c == c then s.chans[c].queue + [s.reader.item]
            else if l.Pop? && l.c == c && s.chans[c].queue != [] then s.chans[c].queue[1..]
            else s.chans[c].queue
  {
  }

  /** Everything queued stays queued where it is, except a popped head. */
  lemma OthersStay(s: State, l: Label, c: ChanId)
    requires Enabled(s, l) && MovedIsThere(s, l) && |s.places| == |s.inbound|
    requires c in s.chans && QueueOk(s.inbound, s.places, c, s.chans[c].queue)
    ensures var q := s.chans[c].queue;
            forall i :: 0 <= i < |q| && !(l.Pop? && l.c == c && i == 0) ==>
              ItemAt(NewInbound(s, l), NewPlaces(s, l), q[i], InChan(c))
  {
    var q := s.chans[c].queue;
    forall i | 0 <= i < |q| && !(l.Pop? && l.c == c && i == 0)
      ensures ItemAt(NewInbound(s, l), NewPlaces(s, l), q[i], InChan(c))
    {
      assert ItemAt(s.inbound, s.places, q[i], InChan(c));
      ItemStays(s, l, q[i], InChan(c));
    }
  }

  lemma QueuePush(inbound: seq<Frame>, places: seq<Place>, c: ChanId, q: seq<Item>, item: Item)
    requires QueueOk(inbound, places, c, q) && ItemAt(inbound, places, item, InChan(c))
    requires forall i :: 0 <= i < |q| ==> q[i].occurrence != item.occurrence
    ensures QueueOk(inbound, places, c, q + [item])
  {
  }

  lemma QueuePop(inbound: seq<Frame>, places: seq<Place>, c: ChanId, q: seq<Item>)
    requires q != [] && (forall i :: 1 <= i < |q| ==> ItemAt(inbound, places, q[i], InChan(c)))
    requires forall i, j :: 0 <= i < j < |q| ==> q[i].occurrence != q[j].occurrence
    ensures QueueOk(inbound, places, c, q[1..])
  {
  }

  lemma StepKeepsQueue(s: State, l: Label, c: ChanId)
    requires Enabled(s, l) && MovedIsThere(s, l) && |s.places| == |s.inbound|
    requires c in s.chans && QueueOk(s.inbound, s.places, c, s.chans[c].queue)
    ensures QueueOk(NewInbound(s, l), NewPlaces(s, l), c, NewChans(s, l)[c].queue)
  {
    var q, popped := s.chans[c].queue, l.Pop? && l.c == c && s.chans[c].queue != [];
    OthersStay(s, l, c);
    QueueAfter(s, l, c);
    if l.PushItem? && s.reader.c == c {
      QueuePush(NewInbound(s, l), NewPlaces(s, l), c, q, s.reader.item);
    } else if popped {
      QueuePop(NewInbound(s, l), NewPlaces(s, l), c, q);
    }
  }

  lemma StepKeepsTask(s: State, l: Label, c: ChanId)
    requires Enabled(s, l) && MovedIsThere(s, l) && |s.places| == |s.inbound|
    requires c in s.receivers && TaskOk(s.inbound, s.places, c, s.receivers[c].work)
    ensures TaskOk(NewInbound(s, l), NewPlaces(s, l), c, NewReceivers(s, l)[c].work)
  {
    var work := NewReceivers(s, l)[c].work;
    if work.Working? && work == s.receivers[c].work && !(l.Pop? && l.c == c) {
      ItemStays(s, l, work.item, AtTask(c));
    }
  }

  lemma StepKeepsReader(s: State, l: Label)
    requires Enabled(s, l) && MovedIsThere(s, l) && |s.places| == |s.inbound|
    requires ReaderOk(s.inbound, s.places, s.reader)
    ensures ReaderOk(NewInbound(s, l), NewPlaces(s, l), NewReader(s, l))
  {
    if (s.reader.Looking? || s.reader.Found? || s.reader.Unhandled?) && !l.PushItem? && !l.Reject? {
      ItemStays(s, l, s.reader.item, AtReader);
    }
  }

  lemma StepKeepsReplies(s: State, l: Label)
    requires Enabled(s, l) && MovedIsThere(s, l) && |s.places| == |s.inbound|
    requires RepliesOk(s.inbound, s.places, s.replies)
    ensures RepliesOk(NewInbound(s, l), NewPlaces(s, l), NewReplies(s, l))
  {
    forall i | 0 <= i < |s.replies|
      ensures ItemAt(NewInbound(s, l), NewPlaces(s, l), Item(s.replies[i].occurrence, s.replies[i].id), Replied)
    {
      ItemStays(s, l, Item(s.replies[i].occurrence, s.replies[i].id), Replied);
    }
  }

  lemma StepKeepsPlacesInv(s: State, l: Label)
    requires PlacesInv(s) && s.chans.Keys == s.receivers.Keys && Enabled(s, l)
    ensures PlacesInv(Step(s, l))
  {
    StepMovesWhatIsThere(s, l);
    var t := Step(s, l);
    forall c | c in t.chans
      ensures QueueOk(t.inbound, t.places, c, t.chans[c].queue)
    {
      if c in s.chans {
        StepKeepsQueue(s, l, c);
      }
    }
    forall c | c in t.receivers
      ensures TaskOk(t.inbound, t.places, c, t.receivers[c].work)
    {
      if c in s.receivers {
        StepKeepsTask(s, l, c);
      }
    }
    StepKeepsReader(s, l);
    StepKeepsReplies(s, l);
  }

  /** The converse: every frame really is where its place says. */
  ghost predicate FrameOk(s: State, k: nat)
    requires k < |s.places| == |s.inbound|
  {
    var item := Item(k, s.inbound[k].id);
    match s.places[k]
    case AtReader => (s.reader.Looking? || s.reader.Found? || s.reader.Unhandled?) && s.reader.item == item
    case InChan(c) => c in s.chans && item in s.chans[c].queue
    case AtTask(c) => c in s.receivers && s.receivers[c].work == Working(item)
    case Replied => Reply(k, s.inbound[k].id) in s.replies
    case Lost => true
  }

  ghost predicate FramesInv(s: State) {
    |s.places| == |s.inbound| && forall k :: 0 <= k < |s.places| ==> FrameOk(s, k)
  }

  lemma MovedFrameOk(s: State, l: Label)
    requires Enabled(s, l) && MovedIsThere(s, l) && |s.places| == |s.inbound| && Moved(s, l).Some?
    ensures FrameOk(Step(s, l), Moved(s, l).value.0.occurrence)
  {
    if l.PushItem? {
      QueueAfter(s, l, s.reader.c);
    } else if Answers(s, l) {
      var item, t := Moved(s, l).value.0, Step(s, l);
      assert t.replies[|s.replies|] == Reply(item.occurrence, item.id);
    }
  }

  /** Frames in a channel or already answered. */
  lemma StoredFrameOk(s: State, l: Label, k: nat)
    requires Enabled(s, l) && k < |s.places| == |s.inbound| && FrameOk(s, k)
    requires s.places[k].InChan? || s.places[k].Replied?
    requires Moved(s, l).Some? ==> Moved(s, l).value.0.occurrence != k
    ensures FrameOk(Step(s, l), k)
  {
    if s.places[k].InChan? {
      QueueAfter(s, l, s.places[k].c);
    }
  }

  /** Frames in somebody's hands. */
  lemma HeldFrameOk(s: State, l: Label, k: nat)
    requires Enabled(s, l) && k < |s.places| == |s.inbound| && FrameOk(s, k)
    requires s.places[k].AtReader? || s.places[k].AtTask? || s.places[k].Lost?
    requires Moved(s, l).Some? ==> Moved(s, l).value.0.occurrence != k
    requires s.places[k].AtTask? ==>
               s.places[k].c in s.chans && WorkInv(s.receivers[s.places[k].c].work, s.chans[s.places[k].c].rx)
    ensures FrameOk(Step(s, l), k)
  {
  }

  lemma StepKeepsFramesInv(s: State, l: Label)
    requires FramesInv(s) && ChannelsInv(s) && PlacesInv(s) && Enabled(s, l)
    ensures FramesInv(Step(s, l))
  {
    var t := Step(s, l);
    StepMovesWhatIsThere(s, l);
    forall k | 0 <= k < |t.places|
      ensures FrameOk(t, k)
    {
      if Moved(s, l).Some? && Moved(s, l).value.0.occurrence == k {
        MovedFrameOk(s, l);
      } else if k < |s.places| {
        assert FrameOk(s, k);
        if s.places[k].InChan? || s.places[k].Replied? {
          StoredFrameOk(s, l, k);
        } else {
          if s.places[k].AtTask? {
            assert ChanInv(s, s.places[k].c);
          }
          HeldFrameOk(s, l, k);
        }
      }
    }
  }

  // ------------------------------------------------------------------ the whole invariant

  ghost predicate Inv(s: State) {
    && RegistryInv(s)
    && ChannelsInv(s)
    && PlacesInv(s)
    && FramesInv(s)
    && (s.reader.Found? || s.reader.Pushed? ==> s.reader.c in s.chans)
  }

  lemma InitInv(answers: bool)
    ensures Inv(Init(answers))
  {
  }

  lemma StepKeepsReaderChannel(s: State, l: Label)
    requires Inv(s) && Enabled(s, l)
    ensures var r := NewReader(s, l);
            r.Found? || r.Pushed? ==> r.c in NewChans(s, l)
  {
    StepKeepsKeys(s, l);
  }

  lemma StepKeepsInv(s: State, l: Label)
    requires Inv(s) && Enabled(s, l)
    ensures Inv(Step(s, l))
  {
    StepKeepsRegistryInv(s, l);
    StepKeepsChannelsInv(s, l);
    StepKeepsPlacesInv(s, l);
    StepKeepsFramesInv(s, l);
    StepKeepsReaderChannel(s, l);
  }

  // ------------------------------------------------------------------ what it means

  /**
   Registration and retirement. Every mapped channel is open. Every task spawned by `on` or
   `on_notification` holds a channel that is mapped or closed, except the one whose replacement is
   still in progress under the registry lock.
   */
  lemma RegistrationsSound(s: State)
    requires Inv(s)
    ensures forall a :: a in s.registry ==> s.registry[a] in s.chans && !s.chans[s.registry[a]].closed
    ensures forall c :: c in s.receivers && s.receivers[c].kind.Handler? ==>
              Mapped(s, c) || s.chans[c].closed || s.lock == Retiring(c)
  {
  }

  /** `wait_for` removes its own registration or nothing. */
  lemma WaitForRemovesOnlyItself(s: State, c: ChanId)
    requires Inv(s) && Enabled(s, Remove(c))
    ensures var t := Step(s, Remove(c));
            && (forall a :: a in s.registry && s.registry[a] != c ==> a in t.registry && t.registry[a] == s.registry[a])
            && (forall a :: a in t.registry ==> a in s.registry && t.registry[a] == s.registry[a] != c)
  {
  }

  predicate IsTaskLabel(l: Label) {
    l.Spawn? || l.Pop? || l.LoadClosed? || l.TakeSignal? || l.Finish?
  }

  /** The next step of a task that is not parked. */
  function NextOf(s: State, c: ChanId): Label
    requires c in s.chans && c in s.receivers
  {
    if s.receivers[c].work.NotSpawned? then Spawn(c)
    else if s.receivers[c].work.Working? then Finish(c, true)
    else if s.chans[c].rx.Checking? then Pop(c)
    else if s.chans[c].rx.EmptyLocked? then LoadClosed(c)
    else TakeSignal(c)
  }

  predicate Retired(s: State, c: ChanId) {
    c in s.receivers && c in s.chans && s.receivers[c].kind.Handler? && s.chans[c].closed
  }

  /** Work left before a retired task ends: its queue, then the position in its loop. */
  function Backlog(ch: Channel.Sys<Item>, work: Work): nat {
    5 * |ch.queue| +
    match work
    case NotSpawned => 4
    case Working(_) => 4
    case InRecv => if ch.rx.Waiting? then 4 else if ch.rx.Checking? then 3 else 2
    case _ => 0
  }

  /** Waiting for work: parked on an open channel with nothing in it. */
  predicate WaitsForWork(s: State, c: ChanId)
    requires c in s.chans
  {
    s.chans[c].rx.Waiting? && s.chans[c].queue == [] && !s.chans[c].closed
  }

  lemma ReceivingTaskCanStep(s: State, c: ChanId)
    requires PlacesInv(s) && Doing(s, c, InRecv) && ChanInv(s, c) && s.reader != Pushed(c) && s.lock != Announcing(c)
    ensures Enabled(s, NextOf(s, c)) || WaitsForWork(s, c)
  {
    assert QueueOk(s.inbound, s.places, c, s.chans[c].queue);
  }

  lemma WorkingTaskCanStep(s: State, c: ChanId)
    requires PlacesInv(s) && c in s.receivers && c in s.chans && s.receivers[c].work.Working? && ChanInv(s, c)
    ensures Enabled(s, Finish(c, true))
  {
    assert TaskOk(s.inbound, s.places, c, s.receivers[c].work);
  }

  /** No handler task is stuck: unless it has ended, it can step or waits for work, as long as nobody still
      owes it a signal. */
  lemma TaskCanStep(s: State, c: ChanId)
    requires Inv(s) && c in s.receivers && s.receivers[c].kind.Handler? && !s.receivers[c].work.Ended?
    requires s.reader != Pushed(c) && s.lock != Announcing(c)
    ensures c in s.chans && (Enabled(s, NextOf(s, c)) || WaitsForWork(s, c))
  {
    assert ChanInv(s, c);
    match s.receivers[c].work
    case InRecv => ReceivingTaskCanStep(s, c);
    case Working(_) => WorkingTaskCanStep(s, c);
    case _ =>
  }

  /** A retired task never waits for work: unless it has ended, it can step. */
  lemma RetiredTaskCanStep(s: State, c: ChanId)
    requires Inv(s) && Retired(s, c) && s.reader != Pushed(c) && s.lock != Announcing(c)
    requires !s.receivers[c].work.Ended?
    ensures Enabled(s, NextOf(s, c))
  {
    TaskCanStep(s, c);
  }

  /** The next step of a `wait_for` call, or of the registration whose lock it needs. */
  function NextOfWaiter(s: State, c: ChanId): Label
    requires c in s.chans && c in s.receivers
  {
    match s.receivers[c].work
    case NotSpawned => Spawn(c)
    case InRecv => if s.chans[c].rx.EmptyLocked? then LoadClosed(c) else TimeOut(c)
    case Working(_) => Finish(c, true)
    case _ => if s.lock.Free? then Remove(c) else if s.lock.Retiring? then CloseReplaced else SignalReplaced
  }

  /** No `wait_for` call is stuck: until it has ended or was dropped, it can step, or the registration in
      progress whose lock it needs can. */
  lemma WaiterCanStep(s: State, c: ChanId)
    requires Inv(s) && c in s.receivers && s.receivers[c].kind.Waiter?
    requires !s.receivers[c].work.Ended? && !s.receivers[c].work.Dropped?
    ensures c in s.chans && Enabled(s, NextOfWaiter(s, c))
  {
    assert ChanInv(s, c);
    if s.receivers[c].work.Working? {
      assert TaskOk(s.inbound, s.places, c, s.receivers[c].work);
    }
    if s.lock.Announcing? {
      assert ChanInv(s, s.lock.c);
    }
  }

  lemma RetiredStaysRetired(s: State, l: Label, c: ChanId)
    requires Enabled(s, l) && Retired(s, c)
    ensures Retired(Step(s, l), c)
  {
  }

  /** The read loop has looked this channel up and not yet pushed. */
  predicate OnItsWay(s: State, c: ChanId) {
    s.reader.Found? && s.reader.c == c
  }

  predicate IsTaskStep(l: Label, c: ChanId) {
    IsTaskLabel(l) && l.c == c
  }

  /** Everything a retired task may still have to do: its backlog, and the one frame that may have been
      looked up before the close. */
  function Debt(s: State, c: ChanId): nat
    requires c in s.chans && c in s.receivers
  {
    Backlog(s.chans[c], s.receivers[c].work) + 5 * One(OnItsWay(s, c))
  }

  lemma BacklogAfter(s: State, l: Label, c: ChanId)
    requires Enabled(s, l) && Retired(s, c) && ChanInv(s, c)
    ensures var pushed := l.PushItem? && OnItsWay(s, c);
            One(IsTaskStep(l, c)) + Backlog(NewChans(s, l)[c], NewReceivers(s, l)[c].work)
            <= Backlog(s.chans[c], s.receivers[c].work) + 5 * One(pushed)
  {
    QueueAfter(s, l, c);
  }

  /** A closed channel is mapped no more, so the read loop cannot find it again. */
  lemma ClosedIsNotFoundAgain(s: State, l: Label, c: ChanId)
    requires RegistryInv(s) && Enabled(s, l) && Retired(s, c)
    ensures var r := NewReader(s, l);
            (r.Found? && r.c == c ==> OnItsWay(s, c) && !l.PushItem?)
  {
  }

  /** One step of anybody: the task's own steps shrink its debt and nothing makes it grow. */
  lemma RetiredTaskDrains(s: State, l: Label, c: ChanId)
    requires Inv(s) && Enabled(s, l) && Retired(s, c)
    ensures Inv(Step(s, l)) && Retired(Step(s, l), c)
    ensures One(IsTaskStep(l, c)) + Debt(Step(s, l), c) <= Debt(s, c)
  {
    assert ChanInv(s, c);
    StepKeepsInv(s, l);
    RetiredStaysRetired(s, l, c);
    BacklogAfter(s, l, c);
    ClosedIsNotFoundAgain(s, l, c);
  }

  /** A retired task with nothing left to do has ended. */
  lemma NoDebtMeansEnded(s: State, c: ChanId)
    requires Inv(s) && Retired(s, c) && Debt(s, c) == 0
    ensures s.receivers[c].work.Ended?
  {
    assert ChanInv(s, c);
  }

  /** A step, or with `None` a step of somebody else in the engine, which leaves the registry alone. */
  ghost predicate IsMove(s: State, l: Option<Label>, t: State) {
    if l.None? then t == s else Enabled(s, l.value) && t == Step(s, l.value)
  }

  /** A stretch of any interleaving. */
  ghost predicate IsSegment(states: seq<State>, labels: seq<Option<Label>>) {
    |states| == |labels| + 1 && forall i :: 0 <= i < |labels| ==> IsMove(states[i], labels[i], states[i + 1])
  }

  ghost predicate IsRun(states: seq<State>, labels: seq<Option<Label>>) {
    IsSegment(states, labels) && states[0] == Init(states[0].answers)
  }

  function TaskSteps(labels: seq<Option<Label>>, c: ChanId, lo: nat, hi: nat): nat
    requires lo <= hi <= |labels|
  {
    if lo == hi then 0
    else TaskSteps(labels, c, lo, hi - 1) + One(IsTaskMove(labels[hi - 1], c))
  }

  predicate IsTaskMove(l: Option<Label>, c: ChanId) {
    l.Some? && IsTaskStep(l.value, c)
  }

  ghost predicate RetiredOk(s: State, c: ChanId) {
    Inv(s) && Retired(s, c)
  }

  lemma RetiredTaskMove(s: State, l: Option<Label>, t: State, c: ChanId)
    requires IsMove(s, l, t) && RetiredOk(s, c)
    ensures RetiredOk(t, c) && One(IsTaskMove(l, c)) + Debt(t, c) <= Debt(s, c)
  {
    if l.Some? {
      RetiredTaskDrains(s, l.value, c);
    }
  }

  lemma {:induction false} RetiredTaskPays(states: seq<State>, labels: seq<Option<Label>>, c: ChanId, lo: nat, hi: nat)
    requires IsSegment(states, labels) && lo <= hi <= |labels| && RetiredOk(states[lo], c)
    ensures RetiredOk(states[hi], c) && TaskSteps(labels, c, lo, hi) + Debt(states[hi], c) <= Debt(states[lo], c)
    decreases hi
  {
    if lo < hi {
      RetiredTaskPays(states, labels, c, lo, hi - 1);
      assert IsMove(states[hi - 1], labels[hi - 1], states[hi]);
      RetiredTaskMove(states[hi - 1], labels[hi - 1], states[hi], c);
    }
  }

  /**
   Retirement over whole runs: in any interleaving after its channel was closed, a task takes at most as
   many steps as its debt was then. Once it has taken that many it has ended, and until then it can step
   (`RetiredTaskCanStep`).
   */
  lemma RetiredTaskRunsOut(states: seq<State>, labels: seq<Option<Label>>, c: ChanId, lo: nat, hi: nat)
    requires IsSegment(states, labels) && lo <= hi <= |labels| && RetiredOk(states[lo], c)
    ensures RetiredOk(states[hi], c) && TaskSteps(labels, c, lo, hi) + Debt(states[hi], c) <= Debt(states[lo], c)
    ensures TaskSteps(labels, c, lo, hi) == Debt(states[lo], c) ==> states[hi].receivers[c].work.Ended?
  {
    RetiredTaskPays(states, labels, c, lo, hi);
    if Debt(states[hi], c) == 0 {
      NoDebtMeansEnded(states[hi], c);
    }
  }

  /**
   Replies. Each inbound frame is answered at most once and under its own message id, in every
   interleaving of registrations and replacements; the notification registry never answers at all.
   */
  lemma AtMostOneReply(s: State)
    requires Inv(s)
    ensures forall i, j :: 0 <= i < j < |s.replies| ==> s.replies[i].occurrence != s.replies[j].occurrence
    ensures forall i :: 0 <= i < |s.replies| ==>
              s.replies[i].occurrence < |s.inbound| && s.replies[i].id == s.inbound[s.replies[i].occurrence].id
    ensures !s.answers ==> s.replies == []
  {
    forall i | 0 <= i < |s.replies|
      ensures s.replies[i].occurrence < |s.inbound| && s.replies[i].id == s.inbound[s.replies[i].occurrence].id
    {
      assert ItemAt(s.inbound, s.places, Item(s.replies[i].occurrence, s.replies[i].id), Replied);
    }
  }

  /** A step that gives up on frame `k`: a handler or the read loop finishing with it without a reply
      that goes out, or a `wait_for` dropped while it works on it. */
  predicate GivesUp(s: State, l: Label, k: nat) {
    && Enabled(s, l)
    && Moved(s, l).Some? && Moved(s, l).value.0.occurrence == k
    && (if l.Finish? || l.Reject? then !(s.answers && l.replies) else l.DropWaiter? && s.receivers[l.c].work.Working?)
  }

  /** A frame is lost by exactly the steps that give up on it. */
  lemma LostOnlyByGivingUp(s: State, l: Label, k: nat)
    requires Enabled(s, l) && k < |Step(s, l).places| && (k < |s.places| ==> !s.places[k].Lost?)
    ensures Step(s, l).places[k].Lost? <==> GivesUp(s, l, k)
  {
  }

  /** A finished or rejected frame of the answering registry whose reply goes out has that reply, under
      its own message id. */
  lemma RepliesReachTheWire(s: State, l: Label)
    requires Inv(s) && Enabled(s, l) && s.answers && (l.Finish? || l.Reject?) && l.replies
    ensures var item := if l.Finish? then s.receivers[l.c].work.item else s.reader.item;
            && item.occurrence < |s.inbound| && s.inbound[item.occurrence].id == item.id
            && Step(s, l).replies == s.replies + [Reply(item.occurrence, item.id)]
  {
    StepMovesWhatIsThere(s, l);
  }

  lemma MoveKeepsInv(s: State, l: Option<Label>, t: State)
    requires Inv(s) && IsMove(s, l, t)
    ensures Inv(t)
  {
    if l.Some? {
      StepKeepsInv(s, l.value);
    }
  }

  lemma {:induction false} RunKeepsInv(states: seq<State>, labels: seq<Option<Label>>, n: nat)
    requires IsRun(states, labels) && n <= |labels|
    ensures Inv(states[n])
  {
    if n == 0 {
      InitInv(states[0].answers);
    } else {
      RunKeepsInv(states, labels, n - 1);
      MoveKeepsInv(states[n - 1], labels[n - 1], states[n]);
    }
  }

  ghost predicate GivesUpAt(states: seq<State>, labels: seq<Option<Label>>, k: nat, i: int) {
    0 <= i < |labels| && i < |states| && labels[i].Some? && GivesUp(states[i], labels[i].value, k)
  }

  lemma LostByMove(s: State, l: Option<Label>, t: State, k: nat)
    requires IsMove(s, l, t) && k < |t.places| && t.places[k].Lost? && !(k < |s.places| && s.places[k].Lost?)
    ensures l.Some? && GivesUp(s, l.value, k)
  {
    if l.Some? {
      LostOnlyByGivingUp(s, l.value, k);
    }
  }

  lemma {:induction false} LostWasGivenUp(states: seq<State>, labels: seq<Option<Label>>, k: nat, n: nat)
    requires IsRun(states, labels) && n <= |labels|
    requires k < |states[n].places| && states[n].places[k].Lost?
    ensures exists i :: i < n && GivesUpAt(states, labels, k, i)
  {
    var s := states[n - 1];
    if k < |s.places| && s.places[k].Lost? {
      LostWasGivenUp(states, labels, k, n - 1);
    } else {
      LostByMove(s, labels[n - 1], states[n], k);
      assert GivesUpAt(states, labels, k, n - 1);
    }
  }

  /** Where a frame that was not given up on is. */
  ghost predicate Accounted(s: State, k: nat)
    requires k < |s.inbound|
  {
    var item := Item(k, s.inbound[k].id);
    || Reply(k, item.id) in s.replies
    || (exists c :: c in s.chans && item in s.chans[c].queue)
    || (exists c :: c in s.receivers && s.receivers[c].work == Working(item))
  }

  /**
   Conservation over whole runs: a frame the reader has handed over was given up on by an earlier step,
   or is answered, queued or being worked on. None disappears.
   */
  lemma NoFrameDisappears(states: seq<State>, labels: seq<Option<Label>>, k: nat, n: nat)
    requires IsRun(states, labels) && n <= |labels| && k < |states[n].inbound| && states[n].reader.Idle?
    ensures Accounted(states[n], k) || exists i :: i < n && GivesUpAt(states, labels, k, i)
  {
    RunKeepsInv(states, labels, n);
    assert FrameOk(states[n], k);
    if states[n].places[k].Lost? {
      LostWasGivenUp(states, labels, k, n);
    }
  }

  // ------------------------------------------------------------------ the registry object

  /** A whole registration: insert, and if that replaced a channel, close it and signal it. */
  ghost function Registered(s: State, kind: Kind, action: string, c: ChanId): State
    requires Enabled(s, Insert(kind, action, c))
    requires action in s.registry ==> s.registry[action] in s.chans
  {
    var inserted := Step(s, Insert(kind, action, c));
    if action in s.registry then Step(Step(inserted, CloseReplaced), SignalReplaced) else inserted
  }

  ghost function ClosedChan(ch: Channel.Sys<Item>): Channel.Sys<Item> {
    Channel.Step(Channel.Step(ch, Channel.StoreClosed), Channel.SignalClose)
  }

  /** The channels after a registration: the new one, and the one it displaced closed. */
  ghost function Replaced(registry: map<string, ChanId>, chans: map<ChanId, Channel.Sys<Item>>, action: string, c: ChanId)
    : map<ChanId, Channel.Sys<Item>>
    requires action in registry ==> registry[action] in chans
  {
    var inserted := chans[c := Channel.Fresh()];
    if action in registry then inserted[registry[action] := ClosedChan(inserted[registry[action]])] else inserted
  }

  /** A registration maps the action to the new channel, closes and signals exactly the channel it
      replaced, and leaves the lock free. */
  lemma RegisteredEffect(s: State, kind: Kind, action: string, c: ChanId)
    requires Enabled(s, Insert(kind, action, c))
    requires action in s.registry ==> s.registry[action] in s.chans
    ensures var t := Registered(s, kind, action, c);
            && t.registry == s.registry[action := c] && t.lock.Free?
            && t.chans == Replaced(s.registry, s.chans, action, c)
  {
  }

  ghost function Sent(ch: Channel.Sys<Item>, item: Item): Channel.Sys<Item>
    requires Channel.Enabled(ch, Channel.Push(item))
  {
    Channel.Step(Channel.Step(ch, Channel.Push(item)), Channel.SignalSend)
  }

  /** A whole push onto the channel the read loop looked up. */
  ghost function Dispatched(s: State): State
    requires Enabled(s, PushItem)
  {
    Step(Step(s, PushItem), SignalItem)
  }

  lemma DispatchEffect(s: State, c: ChanId, item: Item) returns (t: State)
    requires Enabled(s, PushItem) && s.reader == Found(c, item)
    ensures c in s.chans && Channel.Enabled(s.chans[c], Channel.Push(item))
    ensures t == Dispatched(s) && t.registry == s.registry && t.chans == s.chans[c := Sent(s.chans[c], item)]
  {
    t := Dispatched(s);
  }

  ghost function Unmapped(registry: map<string, ChanId>, action: string, c: ChanId): map<string, ChanId> {
    if action in registry && registry[action] == c then registry - {action} else registry
  }

  lemma RemoveEffect(s: State, c: ChanId)
    requires Enabled(s, Remove(c))
    ensures Step(s, Remove(c)).registry == Unmapped(s.registry, s.receivers[c].action, c)
    ensures Step(s, Remove(c)).chans == s.chans
  {
  }

  /**
   The registry with the channels it ever mapped. `state` is the shared state its methods take steps
   of, `byId` the channel object behind each channel of it, `objects` the channels and their signals.
   `Valid` says the objects hold what the state says; that every step keeps `Inv` is `StepKeepsInv`.
   */
  class Registry {
    var senders: map<string, Channel.Chan<Item>>
    ghost var state: State
    ghost var byId: map<ChanId, Channel.Chan<Item>>
    ghost var objects: set<object>

    ghost predicate Owned()
      reads `byId, `objects
    {
      && this !in objects
      && (forall c :: c in byId ==> byId[c] in objects && byId[c].signal in objects)
      && (forall c, d :: c in byId && d in byId && c != d ==> byId[c] != byId[d] && byId[c].signal != byId[d].signal)
    }

    ghost predicate ChansHold(chans: map<ChanId, Channel.Sys<Item>>)
      requires Owned()
      reads `byId, `objects, objects
    {
      byId.Keys == chans.Keys && forall c :: c in byId ==> byId[c].Valid() && byId[c].sys == chans[c]
    }

    ghost predicate SendersHold(registry: map<string, ChanId>)
      reads `senders, `byId
    {
      && senders.Keys == registry.Keys
      && forall a :: a in senders ==> registry[a] in byId && senders[a] == byId[registry[a]]
    }

    ghost predicate Holds(registry: map<string, ChanId>, chans: map<ChanId, Channel.Sys<Item>>)
      reads `senders, `byId, `objects, objects
    {
      Owned() && ChansHold(chans) && SendersHold(registry)
    }

    ghost predicate Valid()
      reads this, objects
    {
      Holds(state.registry, state.chans)
    }

    constructor (ghost answers: bool)
      ensures Valid() && state == Init(answers)
    {
      senders, state, byId, objects := map[], Init(answers), map[], {};
    }

    method CloseReplacedChan(ghost c: ChanId, chan: Channel.Chan<Item>,
                             ghost registry: map<string, ChanId>, ghost chans: map<ChanId, Channel.Sys<Item>>)
      requires Holds(registry, chans) && c in byId && byId[c] == chan
      modifies chan, chan.signal
      ensures Holds(registry, chans[c := ClosedChan(chans[c])])
    {
      chan.Close();
    }

    ghost method Own(chan: Channel.Chan<Item>, registry: map<string, ChanId>, chans: map<ChanId, Channel.Sys<Item>>)
      requires Holds(registry, chans)
      modifies `objects
      ensures Holds(registry, chans) && objects == old(objects) + {chan, chan.signal}
    {
      objects := objects + {chan, chan.signal};
    }

    ghost method Add(c: ChanId, chan: Channel.Chan<Item>,
                     registry: map<string, ChanId>, chans: map<ChanId, Channel.Sys<Item>>)
      requires Holds(registry, chans) && c !in chans && chan.Valid() && chan.sys == Channel.Fresh()
      requires chan in objects && chan.signal in objects
      requires forall d :: d in byId ==> byId[d] != chan && byId[d].signal != chan.signal
      modifies `byId
      ensures Holds(registry, chans[c := Channel.Fresh()]) && byId == old(byId)[c := chan]
    {
      byId := byId[c := chan];
    }

    ghost method Adopt(c: ChanId, chan: Channel.Chan<Item>,
                       registry: map<string, ChanId>, chans: map<ChanId, Channel.Sys<Item>>)
      requires Holds(registry, chans) && c !in chans
      requires chan.Valid() && chan.sys == Channel.Fresh() && chan !in objects && chan.signal !in objects
      modifies `byId, `objects
      ensures Holds(registry, chans[c := Channel.Fresh()]) && byId == old(byId)[c := chan]
    {
      Own(chan, registry, chans);
      Add(c, chan, registry, chans);
    }

    method MapTo(action: string, ghost c: ChanId, chan: Channel.Chan<Item>,
                 ghost registry: map<string, ChanId>, ghost chans: map<ChanId, Channel.Sys<Item>>)
      requires Holds(registry, chans) && c in byId && byId[c] == chan
      modifies `senders
      ensures Holds(registry[action := c], chans)
    {
      senders := senders[action := chan];
    }

    /** The insertion; the channel it displaced, if any, is still there. */
    method InsertChan(action: string, ghost c: ChanId, chan: Channel.Chan<Item>,
                      ghost registry: map<string, ChanId>, ghost chans: map<ChanId, Channel.Sys<Item>>)
      returns (previous: Option<Channel.Chan<Item>>)
      requires Holds(registry, chans) && c !in chans
      requires chan.Valid() && chan.sys == Channel.Fresh() && chan !in objects && chan.signal !in objects
      modifies `senders, `byId, `objects
      ensures Holds(registry[action := c], chans[c := Channel.Fresh()]) && byId == old(byId)[c := chan]
      ensures previous.Some? <==> action in registry
      ensures previous.Some? ==> registry[action] in chans && previous.value == byId[registry[action]]
      ensures previous.Some? ==> previous.value in old(objects) && previous.value.signal in old(objects)
    {
      previous := if action in senders then Some(senders[action]) else None;
      Adopt(c, chan, registry, chans);
      MapTo(action, c, chan, registry, chans[c := Channel.Fresh()]);
    }

    method Replace(action: string, ghost c: ChanId, chan: Channel.Chan<Item>,
                   ghost registry: map<string, ChanId>, ghost chans: map<ChanId, Channel.Sys<Item>>)
      requires Holds(registry, chans) && c !in chans
      requires chan.Valid() && chan.sys == Channel.Fresh() && chan !in objects && chan.signal !in objects
      modifies `senders, `byId, `objects, objects
      ensures action in registry ==> registry[action] in chans
      ensures Holds(registry[action := c], Replaced(registry, chans, action, c)) && byId == old(byId)[c := chan]
    {
      var previous := InsertChan(action, c, chan, registry, chans);
      if previous.Some? {
        CloseReplacedChan(registry[action], previous.value, registry[action := c], chans[c := Channel.Fresh()]);
      }
    }

    /** Map `action` to a new channel and close the channel it replaces, so its task can end. */
    method Register(ghost kind: Kind, action: string, ghost c: ChanId, chan: Channel.Chan<Item>)
      requires Valid() && Enabled(state, Insert(kind, action, c))
      requires chan.Valid() && chan.sys == Channel.Fresh() && chan !in objects && chan.signal !in objects
      modifies this, objects
      ensures Valid() && (action in old(state).registry ==> old(state).registry[action] in old(state).chans)
      ensures state == Registered(old(state), kind, action, c)
      ensures byId == old(byId)[c := chan]
    {
      ghost var registry, chans := state.registry, state.chans;
      RegisteredEffect(state, kind, action, c);
      state := Registered(state, kind, action, c);
      Replace(action, c, chan, registry, chans);
    }

    /** The dispatch's first half, under the registry lock. */
    method Lookup(action: string) returns (chan: Option<Channel.Chan<Item>>)
      requires Valid() && Enabled(state, Label.Lookup) && state.reader.action == action
      modifies this`state
      ensures Valid() && state == Step(old(state), Label.Lookup)
      ensures chan.Some? <==> state.reader.Found?
      ensures chan.Some? ==> state.reader.c in byId && chan.value == byId[state.reader.c]
    {
      chan := if action in senders then Some(senders[action]) else None;
      state := Step(state, Label.Lookup);
    }

    method SendTo(ghost c: ChanId, chan: Channel.Chan<Item>, item: Item,
                  ghost registry: map<string, ChanId>, ghost chans: map<ChanId, Channel.Sys<Item>>)
      requires Holds(registry, chans) && c in byId && byId[c] == chan && Channel.Enabled(chans[c], Channel.Push(item))
      modifies chan, chan.signal
      ensures Holds(registry, chans[c := Sent(chans[c], item)])
    {
      chan.Send(item);
    }

    /** Its second half, after the lock was released: the channel may have been closed since. */
    method Dispatch(ghost c: ChanId, chan: Channel.Chan<Item>, item: Item)
      requires Valid() && Enabled(state, PushItem) && state.reader == Found(c, item) && c in byId && byId[c] == chan
      modifies this`state, chan, chan.signal
      ensures Valid() && state == Dispatched(old(state))
    {
      ghost var registry, chans := state.registry, state.chans;
      state := DispatchEffect(state, c, item);
      SendTo(c, chan, item, registry, chans);
    }

    method Unmap(ghost c: ChanId, action: string, chan: Channel.Chan<Item>,
                 ghost registry: map<string, ChanId>, ghost chans: map<ChanId, Channel.Sys<Item>>)
      requires Holds(registry, chans) && c in byId && byId[c] == chan
      modifies this`senders
      ensures Holds(Unmapped(registry, action, c), chans)
    {
      if action in senders && senders[action] == chan {
        senders := senders - {action};
      }
    }

    /** The tail of `wait_for`: tear the registration out only if it is still one's own. */
    method RemoveIfSame(ghost c: ChanId, action: string, chan: Channel.Chan<Item>)
      requires Valid() && Enabled(state, Remove(c)) && state.receivers[c].action == action && byId[c] == chan
      modifies this`senders, this`state
      ensures Valid() && state == Step(old(state), Remove(c))
    {
      ghost var registry, chans := state.registry, state.chans;
      RemoveEffect(state, c);
      state := Step(state, Remove(c));
      Unmap(c, action, chan, registry, chans);
    }
  }
}
