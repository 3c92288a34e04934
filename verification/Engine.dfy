/**
 The connection engine of src/client.rs as one transition system: the read loop, the keepalive
 loop, `disconnect`, any number of `force_reconnect` and `set_ping_interval` callers, and the
 requests, pings, handler registries and reconnect subscribers of the component modules.

 A step is one shared access or one lock section. Transport operations and timers are
 environment choices carried by the labels. A write through the sink is one lock section.

 Each part of the state has its own `New...` function; a step applies them all.
 */
module Engine {
  import opened Prelude
  import Backoff
  import opened RedialRate
  import opened Keepalive
  import Requests
  import Pings
  import Handlers
  import Subscribers
  import BigEndian

  datatype Config = Config(reconnects: bool, backoff: Backoff.Policy, keepalive: Keepalive.Behavior, timeout: nat)

  /** `ping_timeout`: the policy's own, else the client's request timeout. */
  function PingTimeout(cfg: Config): nat {
    if PolicyOf(cfg.keepalive).timeout.Some? then PolicyOf(cfg.keepalive).timeout.value else cfg.timeout
  }

  /** Where the one effective `disconnect` call is. Every later call finds the flag set and returns. */
  datatype Closer = NotCalled | NotifyWake | NotifyChanged | ClosingSink | Done

  /** The flags and tokens everyone shares. `forcers` counts `force_reconnect` callers between their
      closed check and their notify, `setters` interval setters between their store and theirs. */
  datatype Shared = Shared(
    closed: bool, closer: Closer, wake: bool, forcers: nat, changed: bool, millis: U32, setters: nat)

  datatype Reason = Eof | Forced | Shutdown

  datatype Why = Disconnected | NoReconnector

  datatype Event =
    | Malformed
    | Reply(id: Option<Requests.Uuid>, reply: Requests.Reply)
    | Call(frame: Handlers.Frame)
    | Send(frame: Handlers.Frame)
    | PingFrame(payload: seq<BigEndian.Byte>)
    | PongFrame(payload: seq<BigEndian.Byte>)

  /** The backoff round in progress. */
  datatype Wait = Wait(attempt: nat, fraction: U32, deadline: nat)

  datatype ReaderPc =
    | PollRecv
    | PollWake
    | Parked
    | Woken
    | Dispatch(event: Event)
    | InCall
    | InSend
    | AfterRead(reason: Reason)
    | ClearAndExit
    | Courtesy
    | ClearPongs
    | StartBackoff
    | PollTimer(wait: Wait)
    | PollBackoffWake(wait: Wait)
    | ParkedInBackoff(wait: Wait)
    | WokenInBackoff
    | CheckClosed
    | StartDial
    | Dialing
    | SwapSink
    | NotifySubscribers
    | Exited(why: Why)

  /** History since the last inbound event: when it arrived, the backoff rounds finished and dials
      started since, the wakes notified since, and whether one was latched at the time. */
  datatype Segment = Segment(start: nat, rounds: seq<Round>, dials: nat, notified: nat, latched: bool)

  datatype Reader = Reader(pc: ReaderPc, attempt: nat, segment: Segment)

  /** The keepalive loop. `deadline` is when its interval ends; `pong` is the deadline of the ping it
      awaits, once that ping has been written. */
  datatype KeeperPc =
    | Head
    | Load
    | PollOff
    | ParkedOff
    | PollChanged(millis: U32, deadline: nat)
    | PollInterval(millis: U32, deadline: nat)
    | ParkedOn(millis: U32, deadline: nat)
    | CheckBeforePing(millis: U32)
    | Recheck(millis: U32)
    | Pinging(p: Pings.PingId, millis: U32, pong: Option<nat>)
    | ForceCheck
    | ForceNotify
    | Stopped

  datatype Keeper = Keeper(pc: KeeperPc, missed: nat, log: seq<Entry>)

  /** The sink in place and the sinks `close` was called on. Every successful redial brings a new one. */
  datatype Sinks = Sinks(current: nat, closed: set<nat>)

  datatype State = State(
    cfg: Config,
    now: nat,
    sinks: Sinks,
    shared: Shared,
    reader: Reader,
    keeper: Keeper,
    requests: Requests.State,
    pings: Pings.State,
    calls: Handlers.State,
    notes: Handlers.State,
    subs: Subscribers.State)

  /** The read loop. `BeginBackoff` carries the random fraction and the delay it leads to. */
  datatype ReaderLabel =
    | RecvEvent(event: Event)
    | RecvEnd
    | RecvPending
    | ReadWake
    | Unpark
    | CheckAfterWake
    | Handle
    | CallStep(h: Handlers.Label)
    | SendStep(h: Handlers.Label)
    | Decide
    | ClearOnExit
    | CourtesyDone
    | ClearOnRedial
    | BeginBackoff(fraction: U32, delay: nat)
    | TimerReady
    | TimerPending
    | ReadBackoffWake
    | UnparkBackoff
    | CheckAfterBackoffWake
    | CheckBeforeDial
    | BeginDial
    | DialFailed
    | DialSucceeded
    | SwapIn
    | NotifyStep(n: Subscribers.Label)

  /** The keepalive loop. */
  datatype KeeperLabel =
    | AtHead
    | LoadInterval
    | ReadChangedOff
    | UnparkOff
    | ReadChanged
    | ReadTimer(fired: bool)
    | UnparkOn
    | CheckAlive
    | RecheckInterval(p: Pings.PingId)
    | PingDone
    | CheckForce
    | NotifyForce

  /** `disconnect`, `force_reconnect` and `set_ping_interval` callers. */
  datatype ClientLabel =
    | SetClosed
    | SetClosedAgain
    | DisconnectWake
    | DisconnectChanged
    | DisconnectDone
    | ForcerCheck
    | ForcerNotify
    | SetterStore(interval: Option<Backoff.Duration>)
    | SetterNotify

  datatype Label =
    | Tick(elapsed: nat)
    | Read(r: ReaderLabel)
    | Keep(k: KeeperLabel)
    | Client(a: ClientLabel)
    // The components' own actors.
    | RequestStep(request: Requests.Label)
    | PingStep(ping: Pings.Label)
    | CallTaskStep(h: Handlers.Label)
    | NoteTaskStep(h: Handlers.Label)
    | SubscriberStep(n: Subscribers.Label)

  ghost predicate Init(s: State) {
    && s.now == 0
    && s.sinks == Sinks(0, {})
    && s.shared == Shared(false, NotCalled, false, 0, false, StoredMillis(InitialInterval(s.cfg.keepalive)), 0)
    && s.reader == Reader(PollRecv, 0, Segment(0, [], 0, 0, false))
    && s.keeper == Keeper(Head, 0, [])
    && s.requests == Requests.Init()
    && s.pings == Pings.Init()
    && s.calls == Handlers.Init(true)
    && s.notes == Handlers.Init(false)
    && s.subs == Subscribers.Init()
  }

  // ------------------------------------------------------------------ guards

  predicate ReaderGuard(pc: ReaderPc, l: ReaderLabel, now: nat) {
    match l
    case RecvEvent(_) => pc.PollRecv?
    case RecvEnd => pc.PollRecv?
    case RecvPending => pc.PollRecv?
    case ReadWake => pc.PollWake?
    case Unpark => pc.Parked?
    case CheckAfterWake => pc.Woken?
    case Handle => pc.Dispatch?
    case CallStep(h) => pc.InCall? && Handlers.IsReaderLabel(h) && !h.Arrive?
    case SendStep(h) => pc.InSend? && Handlers.IsReaderLabel(h) && !h.Arrive?
    case Decide => pc.AfterRead?
    case ClearOnExit => pc.ClearAndExit?
    case CourtesyDone => pc.Courtesy?
    case ClearOnRedial => pc.ClearPongs?
    case BeginBackoff(_, _) => pc.StartBackoff?
    case TimerReady => pc.PollTimer? && now >= pc.wait.deadline
    case TimerPending => pc.PollTimer?
    case ReadBackoffWake => pc.PollBackoffWake?
    case UnparkBackoff => pc.ParkedInBackoff?
    case CheckAfterBackoffWake => pc.WokenInBackoff?
    case CheckBeforeDial => pc.CheckClosed?
    case BeginDial => pc.StartDial?
    case DialFailed => pc.Dialing?
    case DialSucceeded => pc.Dialing?
    case SwapIn => pc.SwapSink?
    case NotifyStep(n) => pc.NotifySubscribers? && Subscribers.IsReaderLabel(n) && !n.Swap?
  }

  /** A backoff round lasts the jittered delay for the current attempt. */
  predicate DelayGuard(cfg: Config, attempt: nat, l: ReaderLabel) {
    l.BeginBackoff? ==> l.delay == Backoff.Jittered(cfg.backoff, attempt, l.fraction)
  }

  predicate KeeperGuard(pc: KeeperPc, l: KeeperLabel, now: nat, pings: Pings.State) {
    match l
    case AtHead => pc.Head?
    case LoadInterval => pc.Load?
    case ReadChangedOff => pc.PollOff?
    case UnparkOff => pc.ParkedOff?
    case ReadChanged => pc.PollChanged?
    case ReadTimer(fired) => pc.PollInterval? && (fired ==> now >= pc.deadline)
    case UnparkOn => pc.ParkedOn?
    case CheckAlive => pc.CheckBeforePing?
    case RecheckInterval(_) => pc.Recheck?
    case PingDone => pc.Pinging? && pc.p in pings.pings && pings.pings[pc.p].pc.Returned?
    case CheckForce => pc.ForceCheck?
    case NotifyForce => pc.ForceNotify?
  }

  predicate ClientGuard(sh: Shared, l: ClientLabel) {
    match l
    case SetClosed => !sh.closed
    case SetClosedAgain => sh.closed
    case DisconnectWake => sh.closer.NotifyWake?
    case DisconnectChanged => sh.closer.NotifyChanged?
    case DisconnectDone => sh.closer.ClosingSink?
    case ForcerNotify => sh.forcers > 0
    case SetterNotify => sh.setters > 0
    case _ => true
  }

  predicate Awaits(pc: KeeperPc, p: Pings.PingId) {
    pc.Pinging? && pc.p == p
  }

  /** The deadline of the awaited ping has passed. */
  predicate PongDue(pc: KeeperPc, now: nat) {
    pc.Pinging? && pc.pong.Some? && now >= pc.pong.value
  }

  predicate Guard(s: State, l: Label) {
    match l
    case Tick(_) => true
    case Read(r) => ReaderGuard(s.reader.pc, r, s.now) && DelayGuard(s.cfg, s.reader.attempt, r)
    case Keep(k) => KeeperGuard(s.keeper.pc, k, s.now, s.pings)
    case Client(a) => ClientGuard(s.shared, a)
    case RequestStep(r) => !r.HandleReply? && (r.CheckClosed? ==> r.closed == s.shared.closed)
    case PingStep(p) =>
      // Pongs and clearing are the read loop's; the keepalive loop awaits its own ping to the end.
      && !p.HandlePong? && !p.Clear?
      && (p.CheckClosed? ==> p.closed == s.shared.closed)
      && (p.Drop? ==> !Awaits(s.keeper.pc, p.p))
      && (p.PollDelay? && p.elapsed && Awaits(s.keeper.pc, p.p) ==> PongDue(s.keeper.pc, s.now))
    case CallTaskStep(h) => !Handlers.IsReaderLabel(h)
    case NoteTaskStep(h) => !Handlers.IsReaderLabel(h)
    case SubscriberStep(n) => !Subscribers.IsReaderLabel(n)
  }

  // ------------------------------------------------------------------ component steps

  function RequestLabel(pc: ReaderPc, l: Label): Option<Requests.Label> {
    if l.RequestStep? then Some(l.request)
    else if l == Read(Handle) && pc.Dispatch? && pc.event.Reply? && pc.event.id.Some?
    then Some(Requests.HandleReply(pc.event.id.value, pc.event.reply))
    else None
  }

  function PingLabel(pc: ReaderPc, sh: Shared, l: Label): Option<Pings.Label> {
    if l.PingStep? then Some(l.ping)
    else if l == Read(Handle) && pc.Dispatch? && pc.event.PongFrame? then Some(Pings.HandlePong(pc.event.payload))
    else if l == Read(ClearOnExit) || l == Read(ClearOnRedial) then Some(Pings.Clear)
    else if l.Keep? && l.k.RecheckInterval? && sh.millis != 0 then Some(Pings.Begin(l.k.p))
    else None
  }

  function CallLabel(pc: ReaderPc, l: Label): Option<Handlers.Label> {
    if l.CallTaskStep? then Some(l.h)
    else if l.Read? && l.r.CallStep? then Some(l.r.h)
    else if l == Read(Handle) && pc.Dispatch? && pc.event.Call? then Some(Handlers.Arrive(pc.event.frame))
    else None
  }

  function NoteLabel(pc: ReaderPc, l: Label): Option<Handlers.Label> {
    if l.NoteTaskStep? then Some(l.h)
    else if l.Read? && l.r.SendStep? then Some(l.r.h)
    else if l == Read(Handle) && pc.Dispatch? && pc.event.Send? then Some(Handlers.Arrive(pc.event.frame))
    else None
  }

  function SubLabel(l: Label): Option<Subscribers.Label> {
    if l.SubscriberStep? then Some(l.n)
    else if l == Read(SwapIn) then Some(Subscribers.Swap)
    else if l.Read? && l.r.NotifyStep? then Some(l.r.n)
    else None
  }

  predicate Enabled(s: State, l: Label) {
    && Guard(s, l)
    && (RequestLabel(s.reader.pc, l).Some? ==> Requests.Enabled(s.requests, RequestLabel(s.reader.pc, l).value))
    && (PingLabel(s.reader.pc, s.shared, l).Some? ==> Pings.Enabled(s.pings, PingLabel(s.reader.pc, s.shared, l).value))
    && (CallLabel(s.reader.pc, l).Some? ==> Handlers.Enabled(s.calls, CallLabel(s.reader.pc, l).value))
    && (NoteLabel(s.reader.pc, l).Some? ==> Handlers.Enabled(s.notes, NoteLabel(s.reader.pc, l).value))
    && (SubLabel(l).Some? ==> Subscribers.Enabled(s.subs, SubLabel(l).value))
  }

  function NewRequests(s: State, l: Label): Requests.State
    requires Enabled(s, l)
  {
    var r := RequestLabel(s.reader.pc, l);
    if r.Some? then Requests.Step(s.requests, r.value) else s.requests
  }

  function NewPings(s: State, l: Label): Pings.State
    requires Enabled(s, l)
  {
    var p := PingLabel(s.reader.pc, s.shared, l);
    if p.Some? then Pings.Step(s.pings, p.value) else s.pings
  }

  function NewCalls(s: State, l: Label): Handlers.State
    requires Enabled(s, l)
  {
    var h := CallLabel(s.reader.pc, l);
    if h.Some? then Handlers.Step(s.calls, h.value) else s.calls
  }

  function NewNotes(s: State, l: Label): Handlers.State
    requires Enabled(s, l)
  {
    var h := NoteLabel(s.reader.pc, l);
    if h.Some? then Handlers.Step(s.notes, h.value) else s.notes
  }

  function NewSubs(s: State, l: Label): Subscribers.State
    requires Enabled(s, l)
  {
    var n := SubLabel(l);
    if n.Some? then Subscribers.Step(s.subs, n.value) else s.subs
  }

  // ------------------------------------------------------------------ shared flags

  function AfterClient(sh: Shared, l: ClientLabel): Shared
    requires ClientGuard(sh, l)
  {
    match l
    case SetClosed => sh.(closed := true, closer := NotifyWake)
    case SetClosedAgain => sh
    case DisconnectWake => sh.(wake := true, closer := NotifyChanged)
    case DisconnectChanged => sh.(changed := true, closer := ClosingSink)
    case DisconnectDone => sh.(closer := Done)
    case ForcerCheck => if sh.closed then sh else sh.(forcers := sh.forcers + 1)
    case ForcerNotify => sh.(wake := true, forcers := sh.forcers - 1)
    case SetterStore(interval) => sh.(millis := StoredMillis(interval), setters := sh.setters + 1)
    case SetterNotify => sh.(changed := true, setters := sh.setters - 1)
  }

  function NextShared(sh: Shared, l: Label): Shared
    requires l.Client? ==> ClientGuard(sh, l.a)
  {
    match l
    case Read(r) => if r.ReadWake? || r.ReadBackoffWake? then sh.(wake := false) else sh
    case Keep(k) =>
      if k.ReadChangedOff? || k.ReadChanged? then sh.(changed := false)
      else if k.NotifyForce? then sh.(wake := true)
      else sh
    case Client(a) => AfterClient(sh, a)
    case _ => sh
  }

  // ------------------------------------------------------------------ the read loop

  /** The read loop's next position. `settled` says whether the handler registry or the subscriber
      list it is in the middle of has nothing left for it to do. */
  function NextPc(cfg: Config, now: nat, sh: Shared, r: Reader, l: ReaderLabel, settled: bool): ReaderPc
    requires ReaderGuard(r.pc, l, now)
  {
    var pc := r.pc;
    match l
    case RecvEvent(event) => Dispatch(event)
    case RecvEnd => AfterRead(Eof)
    case RecvPending => PollWake
    case ReadWake => if sh.wake then Woken else Parked
    case Unpark => PollRecv
    case CheckAfterWake =>
      if sh.closed then AfterRead(Shutdown)
      else if cfg.reconnects then AfterRead(Forced)
      else PollRecv
    case Handle => if pc.event.Call? then InCall else if pc.event.Send? then InSend else PollRecv
    case CallStep(_) => if settled then PollRecv else InCall
    case SendStep(_) => if settled then PollRecv else InSend
    case Decide =>
      if pc.reason.Shutdown? || sh.closed then ClearAndExit
      else if !cfg.reconnects then Exited(NoReconnector)
      else if pc.reason.Forced? then Courtesy
      else ClearPongs
    case ClearOnExit => Exited(Disconnected)
    case CourtesyDone => ClearPongs
    case ClearOnRedial => StartBackoff
    case BeginBackoff(fraction, delay) => PollTimer(Wait(r.attempt, fraction, now + delay))
    case TimerReady => CheckClosed
    case TimerPending => PollBackoffWake(pc.wait)
    case ReadBackoffWake => if sh.wake then WokenInBackoff else ParkedInBackoff(pc.wait)
    case UnparkBackoff => PollTimer(pc.wait)
    case CheckAfterBackoffWake => if sh.closed then Exited(Disconnected) else CheckClosed
    case CheckBeforeDial => if sh.closed then Exited(Disconnected) else StartDial
    case BeginDial => Dialing
    case DialFailed => StartBackoff
    case DialSucceeded => SwapSink
    case SwapIn => NotifySubscribers
    case NotifyStep(_) => if settled then PollRecv else NotifySubscribers
  }

  function NextAttempt(attempt: nat, l: ReaderLabel): nat {
    if l.RecvEvent? then 0
    else if l.BeginBackoff? then SaturatingInc(attempt)
    else attempt
  }

  function FinishRound(g: Segment, w: Wait, cut: bool): Segment {
    g.(rounds := g.rounds + [Round(w.attempt, w.fraction, cut)])
  }

  function NextSegment(now: nat, sh: Shared, r: Reader, l: ReaderLabel): Segment
    requires ReaderGuard(r.pc, l, now)
  {
    var g := r.segment;
    match l
    case RecvEvent(_) => Segment(now, [], 0, 0, sh.wake)
    case TimerReady => FinishRound(g, r.pc.wait, false)
    case ReadBackoffWake => if sh.wake then FinishRound(g, r.pc.wait, true) else g
    case BeginDial => g.(dials := g.dials + 1)
    case _ => g
  }

  predicate NotifiesWake(l: Label) {
    l == Client(DisconnectWake) || l == Client(ForcerNotify) || l == Keep(NotifyForce)
  }

  function NextReader(cfg: Config, now: nat, sh: Shared, r: Reader, l: Label, settled: bool): Reader
    requires l.Read? ==> ReaderGuard(r.pc, l.r, now)
  {
    if l.Read? then
      Reader(NextPc(cfg, now, sh, r, l.r, settled), NextAttempt(r.attempt, l.r), NextSegment(now, sh, r, l.r))
    else if NotifiesWake(l) then r.(segment := r.segment.(notified := r.segment.notified + 1))
    else r
  }

  // ------------------------------------------------------------------ the keepalive loop

  /** The log entry of a keepalive ping that was not answered. */
  function FailedEntry(cfg: Config, millis: U32, outcome: Pings.Outcome): Entry {
    Failed(millis * MILLI, if outcome.TimedOut? then Some(PingTimeout(cfg)) else None)
  }

  /** The branch after a keepalive ping failed. */
  function AfterMiss(cfg: Config, k: Keeper, failed: Entry): Keeper {
    var missed := SaturatingInc(k.missed);
    if missed >= MissesAllowed(PolicyOf(cfg.keepalive)) then Keeper(ForceCheck, 0, k.log + [failed] + [ForcedRedial])
    else Keeper(Head, missed, k.log + [failed])
  }

  function AfterKeep(cfg: Config, now: nat, sh: Shared, k: Keeper, pings: Pings.State, l: KeeperLabel): Keeper
    requires KeeperGuard(k.pc, l, now, pings)
  {
    match l
    case AtHead => k.(pc := if sh.closed then Stopped else Load)
    case LoadInterval =>
      k.(pc := if sh.millis == 0 then PollOff else PollChanged(sh.millis, now + sh.millis * MILLI))
    case ReadChangedOff => if sh.changed then Keeper(Head, 0, k.log + [Reconfigured]) else k.(pc := ParkedOff)
    case UnparkOff => k.(pc := PollOff)
    case ReadChanged =>
      if sh.changed then Keeper(Head, 0, k.log + [Reconfigured]) else k.(pc := PollInterval(k.pc.millis, k.pc.deadline))
    case ReadTimer(fired) =>
      k.(pc := if fired then CheckBeforePing(k.pc.millis) else ParkedOn(k.pc.millis, k.pc.deadline))
    case UnparkOn => k.(pc := PollChanged(k.pc.millis, k.pc.deadline))
    case CheckAlive => k.(pc := if sh.closed then Stopped else Recheck(k.pc.millis))
    case RecheckInterval(p) =>
      if sh.millis == 0 then k.(pc := Head, log := k.log + [Skipped(k.pc.millis * MILLI)])
      else k.(pc := Pinging(p, k.pc.millis, None))
    case PingDone =>
      var outcome := pings.pings[k.pc.p].pc.outcome;
      if outcome.Answered? then Keeper(Head, 0, k.log + [Answered])
      else AfterMiss(cfg, k, FailedEntry(cfg, k.pc.millis, outcome))
    case CheckForce => k.(pc := if sh.closed then Head else ForceNotify)
    case NotifyForce => k.(pc := Head)
  }

  /** The awaited ping has been written and starts to wait for its pong. */
  predicate StartsPongWait(pc: KeeperPc, l: Label) {
    l.PingStep? && pc.Pinging? && l.ping == Pings.Sent(pc.p, true)
  }

  function NextKeeper(cfg: Config, now: nat, sh: Shared, k: Keeper, pings: Pings.State, l: Label): Keeper
    requires l.Keep? ==> KeeperGuard(k.pc, l.k, now, pings)
  {
    if l.Keep? then AfterKeep(cfg, now, sh, k, pings, l.k)
    else if StartsPongWait(k.pc, l) then k.(pc := Pinging(k.pc.p, k.pc.millis, Some(now + PingTimeout(cfg))))
    else k
  }

  // ------------------------------------------------------------------ the sink

  function NextSinks(sinks: Sinks, l: Label): Sinks {
    if l == Read(SwapIn) then sinks.(current := sinks.current + 1)
    else if l == Read(CourtesyDone) || l == Client(DisconnectDone) then sinks.(closed := sinks.closed + {sinks.current})
    else sinks
  }

  // ------------------------------------------------------------------ steps and runs

  predicate Settled(s: State, l: Label)
    requires Enabled(s, l)
  {
    && (l.Read? && l.r.CallStep? ==> NewCalls(s, l).reader.Idle?)
    && (l.Read? && l.r.SendStep? ==> NewNotes(s, l).reader.Idle?)
    && (l.Read? && l.r.NotifyStep? ==> NewSubs(s, l).phase.Quiet?)
  }

  function Step(s: State, l: Label): State
    requires Enabled(s, l)
  {
    State(
      s.cfg,
      if l.Tick? then s.now + l.elapsed else s.now,
      NextSinks(s.sinks, l),
      NextShared(s.shared, l),
      NextReader(s.cfg, s.now, s.shared, s.reader, l, Settled(s, l)),
      NextKeeper(s.cfg, s.now, s.shared, s.keeper, s.pings, l),
      NewRequests(s, l),
      NewPings(s, l),
      NewCalls(s, l),
      NewNotes(s, l),
      NewSubs(s, l))
  }

  ghost predicate Follows(s: State, l: Label, t: State) {
    Enabled(s, l) && t == Step(s, l)
  }

  /** Names a position in a run, so that a proof uses `IsSegment` at that position only. */
  predicate At(i: int) {
    true
  }

  /** Any stretch of any interleaving. */
  ghost predicate IsSegment(states: seq<State>, labels: seq<Label>) {
    && |states| == |labels| + 1
    && forall i {:trigger At(i)} :: 0 <= i < |labels| && At(i) ==> Follows(states[i], labels[i], states[i + 1])
  }

  lemma FollowsAt(states: seq<State>, labels: seq<Label>, i: nat)
    requires IsSegment(states, labels) && i < |labels|
    ensures Follows(states[i], labels[i], states[i + 1])
  {
    assert At(i);
  }

  ghost predicate IsRun(states: seq<State>, labels: seq<Label>) {
    IsSegment(states, labels) && Init(states[0])
  }
}
