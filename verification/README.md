# A verified model of the ocpp-client connection engine

This project models the concurrent engine of `ocpp-client`, an OCPP-J charge-point client, and proves what
its design comments promise: shutdown is final, neither a shutdown nor a forced redial is lost, no table entry
leaks, every answer reaches the caller it belongs to, a replaced handler ends, a redial loop is never hot, and a
dropped `recv` loses nothing.

## How it is built

- `Engine.dfy` is one transition system. Its actors are the read loop, the keepalive loop, `disconnect`, any
  number of `force_reconnect` and `set_ping_interval` callers, calls, pings, handler tasks and reconnect
  subscribers. A step is one shared access or one lock section. Runs are arbitrary interleavings.
- `Requests.dfy`, `Pings.dfy`, `Handlers.dfy` and `Subscribers.dfy` are the parts of that system, each with its
  own steps, histories and invariant. `Channel.dfy` is the channel every handler task drains.
- Each of these also holds the shared container itself as a class. The class carries the shared state as a ghost
  field, `Valid()` says its real fields hold what that state says, and every method is stated as the step, or
  steps, of that state it takes. `ClientFlags.dfy` does the same for the flags and tokens of a client and for the
  two sleeps of its loops.
- `Signals.dfy` is the latching signal and the two poll-order-sensitive races.
- `Backoff.dfy`, `RedialRate.dfy` and `Keepalive.dfy` are the arithmetic and the logs.
- `Shutdown.dfy`, `Force.dfy`, `Progress.dfy`, `DeadPeer.dfy`, `Detection.dfy`, `RedialProofs.dfy` and
  `SinkSwap.dfy` prove the engine's own invariants and measures. `Wire.dfy` ties the histories of its parts to the
  events of a run. `Theorems.dfy` assembles them and states the results for every state of every run.
- `Reassembly.dfy` is the resumable frame reader of the embassy transport and its handshake loop.
- `Locks.dfy` is the lock discipline of every routine, for any number of tasks.

`dafny verify dfyconfig.toml` checks everything.

## Assumptions

- Message ids are fresh, and execution is sequentially consistent.
- A signal is one optional slot: setting it overwrites, a ready poll takes it, a pending poll leaves it.
- The backoff delay, the keepalive interval and the keepalive ping's pong wait have deadlines on the engine's clock,
  and their timers fire no earlier. Timers of other calls and pings fire when the environment says so.
- Transport results, other timer firings, random fractions, decoding results and the passage of time are chosen by the
  environment and carried by the step labels.
- A write through the shared sink is one lock section, so one step. The lock itself is modelled in `Locks.dfy`.
- The WebSocket decoder is any deterministic function that consumes no more than it is given.
- Call and ping futures may be dropped wherever they can be suspended. A dropped one may leave its entry behind;
  the claims about entries are about calls and pings that returned.

## Where the code and its documentation differ

- `set_ping_interval` is documented as disabled by `None` and zero. The stored value is whole milliseconds, so
  every interval below one millisecond disables pinging too (`Keepalive.SetThenReport`).
- `max_delay` is documented as the cap of the backoff. The delay before the first attempt is `initial_delay`
  even when that is larger (`Backoff.DelayCappedIff`).
- The jittered delay is documented as spread over half the delay to the whole, both included. The whole delay is
  reached by some fraction exactly if it is even and its half fits in 64 bits of nanoseconds: half of an odd delay
  is rounded down, and beyond 64 bits the cast truncates. The bounds themselves always hold (`Backoff.JitterEnds`).
- `on_reconnect` is documented as firing for later reconnects only. A subscriber that registers after a transport
  was swapped in but before its notification went out is called for that swap as well
  (`Subscribers.CallbackForEarlierSwap`), and those are exactly the subscriptions for which it can happen
  (`Subscribers.ExtraCallbackIffInWindow`).
- `pending` of the embassy transport is documented as holding bytes when "a frame boundary fell mid-buffer"
  (crates/ocpp-transport-embassy-net/src/transport.rs:369-370). But `recv` reads no more while any byte is pending, so
  a decoder that refuses an incomplete frame as it stands is never given the rest. A two-byte frame in two reads
  shows it (`Reassembly.SplitFrameSticks`), and `Reassembly.AdvancesIffNotStuck` says exactly when a stream with
  pending bytes can still get anywhere.
- `disconnect` is documented to close the transport. If a dial is under way when it comes to close the sink, the dial
  can still swap in a new sink, which nobody closes (`Theorems.OpenSinkAfterDisconnect`). That is exactly when it can
  happen (`SinkSwap.OpenSinkIffDialUnderWay`).

## Model

| member | source | states |
|---|---|---|
| Backoff.DelayFor | src/reconnect.rs:73-82 | the checked, early-exiting loop equals `min(initial * multiplier^attempt, max)` over unbounded integers for every policy and attempt, overflow of the checked product included, and `initial` for attempt 0 |
| Backoff.DelayMonotoneIff | src/reconnect.rs:71-82 | delays never shrink from attempt to attempt exactly when the policy starts at zero, or has a multiplier of at least one and starts within its cap |
| Backoff.DelayCappedIff | src/reconnect.rs:71-82 | every delay is within `max_delay` exactly when `initial_delay` is |
| Backoff.Jittered | src/reconnect.rs:91-100 | for every fraction the result lies between half the delay and the delay, even when the 64-bit cast truncates, and is the delay itself with jitter off |
| Backoff.JitterProductFits | src/reconnect.rs:96-98 | the 128-bit product cannot overflow for any representable delay |
| Backoff.JitterEnds | src/reconnect.rs:84-100 | fraction 0 gives half the delay; some fraction gives the whole delay exactly if the delay is even and its half fits in 64 bits of nanoseconds, and then the largest does |
| Backoff.JitteredDelayFor | src/reconnect.rs:91-100 | the imperative computation equals the jittered delay |
| Signals.Signal.Set | src/sync.rs:158-160 | a notify latches |
| Signals.Signal.Poll | src/sync.rs:162-164 | a ready wait takes the value and leaves the slot empty |
| Signals.WithCancel | src/runtime.rs:52-68 | the race ends at the first turn at which either side is ready; a ready future wins even against a latched token and then the token stays latched; only a cancellation consumes it |
| Signals.WithTimeout | src/runtime.rs:72-89 | over any future: the race ends at the first turn at which either side is ready, and a future ready at that turn wins even past the deadline |
| Signals.WaitWithTimeout | src/runtime.rs:72-89 | over a signal wait: a value latched by the deciding poll is returned even past the deadline, and a timeout never discards a latched value |
| Channel.Chan.Send | src/sync.rs:76-82 | the object takes the push and signal steps of the shared channel, so a value sent is in push order and its signal is latched |
| Channel.Chan.Close | src/sync.rs:91-94 | the object takes the store and signal steps of the shared channel, without any lock |
| Channel.Chan.PollRecv | src/sync.rs:105-118 | does what the receiver's steps of the shared channel do uninterrupted, from the queue check or from the wait: returns the next value in push order, reports closed only after everything pushed before the close, parks only with no signal left |
| Channel.RecvAloneResult | src/sync.rs:105-118 | what the receiver's steps amount to when nobody interferes |
| Channel.RecvAloneKeepsInv | src/sync.rs:105-118 | an undisturbed receiver keeps the channel invariant and pushes nothing |
| Channel.StepKeepsInv | src/sync.rs:76-118 | every step of any sender, closer or the receiver keeps the channel invariant |
| Channel.ChannelCorrect | src/sync.rs:96-118 | in every run: what was popped is a prefix of what was pushed; "closed" is reported only after everything pushed before the close; a receiver parked with no signal latched is on an empty open channel unless a sender or closer still owes its signal |
| Requests.PendingTable.NewWaiter | src/client.rs:832 | a call's start gives it a one-shot of its own, distinct from every other call's |
| Requests.PendingTable.Register | src/client.rs:833-836 | takes the call's insert step: the id leads to that call's one-shot, every other entry stays |
| Requests.PendingTable.Forget | src/client.rs:842-868 | takes the forget step of the exit it is called on, after a failed write or a timeout |
| Requests.PendingTable.PollWaiter | src/client.rs:848-849 | takes the poll step and returns exactly the reply the specification assigns to the call, or none |
| Requests.PendingTable.Answer | src/client.rs:1051-1054 | the table and every one-shot end up as the reply step of the shared state says: the owner of the id is released and removed, every other one-shot is untouched |
| Requests.FirstReplyMeaning | src/client.rs:1040-1071 | the specification function is the first reply with the id handled from the registration on, and nothing otherwise |
| Requests.StepKeepsInv | src/client.rs:812-868 | every step of any call and of the frame handler keeps: a call in flight has in its slot exactly what the specification assigns, and is in the table exactly while that is nothing |
| Requests.AnswerIsOwnFirstReply | src/client.rs:848-863 | a call returning a value or protocol error returns the content of the first reply with its own id handled after it registered |
| Requests.OneFrameOneCall | src/client.rs:1048-1054 | one reply frame is the answer of at most one call |
| Requests.ReplyTouchesOnlyItsOwner | src/client.rs:1040-1071 | late, duplicate and unknown replies change no call and no entry; an awaited one changes only its owner |
| Requests.PollSeesSpec | src/client.rs:848-858 | the waiter poll delivers exactly when the specification has a reply |
| Requests.ReturnedLeavesNoEntry | src/client.rs:842-858 | a call that returned by any exit is not in the table |
| BigEndian.FromBytes | src/client.rs:342-344 | exactly the 8-byte payloads carry a token |
| BigEndian.TokenIffEncoding | src/client.rs:341-346 | a payload carries a token exactly when it is that token's big-endian encoding |
| Pings.PongTable.NewWaiter | src/client.rs:633 | a ping's start gives it a one-shot of its own, distinct from every other ping's |
| Pings.PongTable.Register | src/client.rs:634-640 | takes the ping's insert step and returns the token its ticket records |
| Pings.PongTable.Forget | src/client.rs:646-665 | takes the forget step of the exit it is called on, after a failed write or a timeout |
| Pings.PongTable.Clear | src/client.rs:384-387 | takes the clearing step: no one-shot is released and the counter stays |
| Pings.PongTable.PollWaiter | src/client.rs:651-652 | takes the poll step, and an answer means this ping's own pong was handled |
| Pings.PongTable.Pong | src/client.rs:341-356 | the table and every one-shot end up as the pong step of the shared state says, and the entries left are exactly those whose token the payload does not encode |
| Pings.StepKeepsInv | src/client.rs:629-665 | every step of any ping, of the pong handler and of the clearing keeps the table, the slots and the token order consistent |
| Pings.TokensDistinct | src/client.rs:635-639 | with at most 2^64 pings issued no two pings share a token |
| Pings.OkMeansOwnPong | src/client.rs:651-652 | `Ok` means a pong echoing this ping's own token was handled after it registered, with no bound on the number of pings |
| Pings.PongTouchesOnlyItsOwner | src/client.rs:341-356 | a pong changes at most the outstanding ping whose token it encodes |
| Pings.ClearedPingStaysUnanswered | src/client.rs:384-387 | a ping cleared before its pong came is never answered any more |
| Pings.PollSeesWire | src/client.rs:651-660 | with no clearing since and no token reuse, the waiter poll succeeds exactly when the pong has arrived |
| Pings.ReturnedLeavesNoEntry | src/client.rs:646-660 | a ping that returned by any exit is not in the table |
| Handlers.Registry.Register | src/client.rs:470-479 | registry, channels and signals end up as the insert, close and signal steps of the shared state say: exactly the replaced channel is closed and woken, every other channel is untouched |
| Handlers.RegisteredEffect | src/client.rs:470-479 | a registration maps the action to the new channel, closes and signals exactly the channel it replaced and leaves the lock free |
| Handlers.Registry.Lookup | src/client.rs:1015-1018 | takes the read loop's lookup step and returns the channel object behind the channel that step finds |
| Handlers.Registry.Dispatch | src/client.rs:1019-1022 | takes the push and signal steps on the channel looked up before, which may have been closed since; every other channel is untouched |
| Handlers.Registry.RemoveIfSame | src/client.rs:543-553 | comparing channel objects takes exactly the removal step of the shared state: the registration goes only if it is still this call's |
| Handlers.StepKeepsInv | src/client.rs:464-611 | every step of registrations, tasks, `wait_for` calls and the reader keeps registrations, channels and the place of every frame consistent |
| Handlers.RegistrationsSound | src/client.rs:470-479 | every mapped channel is open; every task's channel is mapped or closed, except the one being replaced under the lock |
| Handlers.WaitForRemovesOnlyItself | src/client.rs:543-553 | `wait_for` takes out its own registration or nothing |
| Handlers.RetiredTaskCanStep | src/sync.rs:84-118 | a task whose channel was closed never waits for work: until it has ended it can step, once nobody owes it a signal |
| Handlers.TaskCanStep | src/client.rs:480-498 | a handler task that has not ended can step, or is parked on an empty open channel, once nobody owes it a signal |
| Handlers.WaiterCanStep | src/client.rs:512-556 | an unfinished `wait_for` call can step, or the registration whose lock it needs can |
| Handlers.RetiredTaskDrains | src/sync.rs:103-118 | the debt of a retired task is its backlog and the one frame that may have been looked up before the close: each of its own steps shrinks the debt and no step of anybody grows it |
| Handlers.RetiredTaskRunsOut | src/sync.rs:84-118 | over any interleaving after the close, a retired task takes at most its debt in steps, and once it has taken that many it has ended |
| Handlers.AtMostOneReply | src/client.rs:482-498 | each inbound frame is answered at most once and under its own id; the notification registry never answers |
| Handlers.LostOnlyByGivingUp | src/client.rs:526-560 | a frame is lost by a step if and only if that step finishes with it without a reply going out, in a registry that does not answer, or drops a `wait_for` at work on it |
| Handlers.RepliesReachTheWire | src/client.rs:482-498 | a frame of the answering registry finished or rejected with a reply has exactly that reply, under its own id |
| Handlers.NoFrameDisappears | src/client.rs:1006-1039 | in every run a frame handed over is answered, queued, in work, or was given up on by an earlier step that does so |
| Subscribers.BroadcastRegistry.Subscribe | src/sync.rs:191-196 | takes the subscribe step of the shared state with a fresh signal of its own |
| Subscribers.BroadcastRegistry.NotifyAll | src/sync.rs:198-203 | the loop leaves the subscribers as the lock, signal and unlock steps of one notification round leave the shared state |
| Subscribers.BroadcastRegistry.PollSubscriber | src/client.rs:761-766 | a subscriber's ready wait takes the step that begins its callback, and a pending one changes nothing |
| Subscribers.StepKeepsInv | src/client.rs:752-767 | every step of subscribers and the read loop keeps the count of callbacks and tokens within the redials and every unheard redial covered |
| Subscribers.CoalescedNeverMissed | src/client.rs:744-767 | callbacks begun and tokens latched together never exceed redials since subscribing, plus one for a subscription between swap and notification; an unheard redial has its token latched or still owed |
| Subscribers.ExtraCallbackIffInWindow | src/client.rs:413-420 | from any consistent state, some continuation of a new subscription begins more callbacks than redials since if and only if it was made between a swap and its notification |
| Subscribers.CallbackForEarlierSwap | src/client.rs:415-418 | a concrete run in which it happens |
| Keepalive.MissesAllowed | src/keepalive.rs:58-60 | the allowance is `max_missed` unless that is zero, and then one |
| Keepalive.SetThenReport | src/client.rs:694-708 | the reported interval is off exactly below one millisecond and the requested one exactly for whole milliseconds within 32 bits |
| Shutdown.StepKeepsInv | src/client.rs:288-426 | every engine step keeps: once notified, the read loop has a wake latched or is on a path that exits; likewise the keepalive loop |
| Shutdown.StepDecreasesRank | src/client.rs:295-411 | once notified, each read-loop step other than receiving an event or signalling a subscriber decreases a measure that reaches zero at exit |
| Progress.SignalsRunOut | src/client.rs:413-420 | over any interleaving after the flag is set the read loop signals at most the subscribers of one round |
| Progress.AwaitedPingRunsOut | src/client.rs:950 | over any interleaving after the flag is set the pings the keepalive loop awaits take at most six steps, two more per poll that finds neither pong nor deadline |
| Progress.ReaderCanStep | src/client.rs:288-426 | until it has exited the read loop can step, or the holder of the registry or queue lock it needs can |
| Progress.KeeperCanStep | src/client.rs:919-970 | until it has stopped the keepalive loop can step, or the ping it awaits can |
| Progress.SignalsBeforeDial | src/client.rs:413-420 | over any interleaving without a dial the read loop signals at most the subscribers of one round |
| Force.EveryForceIsNotified | src/client.rs:960-967 | in every run of an open client the keepalive loop has notified the read loop exactly once per forced redial it logged, the one in progress excepted |
| Force.StepKeepsAlive | src/client.rs:295-425 | with a reconnector, no step but the dial itself takes a latched or acted-on force away |
| Force.ForceRunsOut | src/client.rs:295-425 | over any interleaving without a dial, an alive force stays alive and the read loop's steps use up its distance to the dial |
| Shutdown.AtMostOneDialAfterClosed | src/client.rs:400-413 | over any interleaving after the flag is set at most one dial starts, one whose closed check had passed; none if a dial was already running |
| Shutdown.ReaderExitsOnlyIf | src/client.rs:360-372 | the read loop exits only after `disconnect`, or when the stream ended with no reconnector |
| Shutdown.NewcomersRefused | src/client.rs:782-783 | over any interleaving after the flag is set every call and ping begun since is refused as closed and neither registers nor writes |
| SinkSwap.OpenSinkIffDialUnderWay | src/client.rs:769-800 | from a state in which `disconnect` is about to close the sink, some continuation leaves an open sink in place if and only if a dial is under way there |
| ClientFlags.Flags.constructor | src/client.rs:247-258 | a new client starts with the flags every run of the engine starts with |
| ClientFlags.Flags.Disconnect | src/client.rs:789-797 | takes the flag, wake and change steps of the engine in that order, once; the first call leaves both loops notified |
| ClientFlags.Flags.ForceReconnect | src/client.rs:720-725 | takes the check and notify steps of the engine: latches the wake unless the client is closed |
| ClientFlags.Flags.SetPingInterval | src/client.rs:81-87 | filter, clamp and store amount to the engine's store step, followed by its notify step |
| ClientFlags.Flags.PingInterval | src/client.rs:74-79 | reports off exactly if the keepalive loop would wait for a change only, else the very interval it would wait out |
| ClientFlags.Flags.RaceRecv | src/client.rs:295-311 | `with_cancel` over `recv` leaves the wake token and the read loop where the read loop's polling steps of the engine leave them, for every sequence of wake-ups |
| ClientFlags.Flags.RaceInterval | src/client.rs:932-939 | `with_timeout` over the change signal leaves its token and the keepalive loop where that loop's polling steps leave them |
| DeadPeer.StepKeepsIntervalInv | src/client.rs:925-948 | every step of any number of setters and the keepalive loop keeps: a waited-on interval is the stored one, or a change is latched or about to be |
| DeadPeer.NoStaleInterval | src/client.rs:925-939 | with nothing latched and no setter in flight the loop waits on the stored interval |
| DeadPeer.StepKeepsMissInv | src/client.rs:950-969 | every step keeps the miss counter equal to the misses the log shows, and logs a forced redial exactly at the allowance |
| DeadPeer.CounterNeverSaturates | src/client.rs:953-961 | the counter stays below the allowance, so its saturating increment is exact |
| DeadPeer.ForcedAtExactlyTheAllowedMiss | src/client.rs:950-969 | a forced redial is logged at exactly the allowed-th consecutive failed ping since the last answered ping, observed reconfiguration or earlier force; `Force.EveryForceIsNotified` ties the log to notified wakes |
| DeadPeer.OneIntervalPerStretch | src/client.rs:925-950 | over any stretch of a run in which no interval is stored, every failed ping is logged with the stored interval |
| DeadPeer.AnsweredMeansPong | src/client.rs:950-951 | the counter is reset as answered only if that ping's own pong arrived |
| DeadPeer.StepKeepsPingingInv | src/client.rs:629-661 | every step keeps how far the awaited ping is in agreement with its pong deadline: it is given up as late only once that has passed |
| Detection.EveryIntervalIsARound | src/client.rs:932-968 | in every run of an open client each interval that ended is one round, answered, failed or skipped, the round in progress excepted |
| Detection.TimeIsWaitsAndLateness | src/client.rs:919-970 | over any stretch of an open client's run without answer, reconfiguration or force, the time that passes is exactly the logged interval and pong waits plus the time in which no timer of the loop was running |
| RedialRate.HalvesAtLeastFirst | src/reconnect.rs:33-41 | whichever rounds were cut short, the others last at least as long as the shortest ones would |
| RedialProofs.StepKeepsSegmentInv | src/client.rs:318-425 | every engine step keeps the account of rounds, dials, wakes and time since the last inbound event |
| RedialProofs.NoHotRedialLoop | src/client.rs:389-425 | since the last inbound event each dial had its own backoff round for its attempt number, cuts are covered by wakes, and at least half of every uncut delay has passed |
| RedialProofs.DialRate | src/client.rs:389-425 | for a growing policy, n dials against c wakes take at least half of the first n - c delays |
| Theorems.StepKeepsInv | src/client.rs:280-427 | every step of every actor keeps the whole invariant |
| Theorems.RunKeepsInv | src/client.rs:226-451 | the invariant holds in every state of every run |
| Theorems.ShutdownIsFinal | src/client.rs:789-800 | in every run at most one dial starts after the flag is set |
| Theorems.SinkClosedIffNotSwapped | src/client.rs:415 | in every run, after `disconnect` is done the sink in place is closed exactly as long as none was swapped in since; at most one can be, and only if a dial was under way |
| Theorems.OpenSinkAfterDisconnect | src/client.rs:789-800 | for every configuration with a reconnector, a run in which `disconnect` is done and the sink in place is open |
| Theorems.NothingNewAfterClosed | src/client.rs:630-632 | in every run every call and ping begun after the flag was set is refused |
| Theorems.ShutdownReachesReader | src/client.rs:295-311 | in every run, counting every step, the read loop takes at most 12 more after the notification plus 7 per inbound event plus one per subscriber; it is never left parked without a wake, and until it exits it or the holder of the lock it needs can step |
| Theorems.ShutdownReachesKeeper | src/client.rs:919-948 | in every run the keepalive loop takes at most four more steps after its notification, and the pings it awaits at most six, two more per empty poll; until it stops it or the ping it awaits can step |
| Theorems.KeeperGoesOn | src/client.rs:919-970 | in every reachable state, until it has stopped, the keepalive loop or the ping it awaits can step |
| Theorems.ForceReachesDial | src/client.rs:295-413 | in every run with a reconnector, a notified wake stays latched or acted on until the next dial begins; counting every step, the read loop takes at most 18 until then, plus 7 per inbound event, 3 per empty backoff poll and one per subscriber; it is never parked without the wake, exits only if closed, and can step, or the holder of the lock it needs can |
| Theorems.RightAnswerToRightCaller | src/client.rs:812-868 | in every reachable state, across redials, a returned call has no entry, and returned the first reply with its id among the replies received in the run, from those handled at its registration on |
| Theorems.RightPongToRightPing | src/client.rs:629-665 | in every reachable state a returned ping has no entry, and `Ok` means a pong with its own token among those received in the run, from those handled at its registration on |
| Theorems.NoPingCrossesARedial | src/client.rs:384-387 | in every reachable state every ping still in the table registered after the clearing of the latest redial |
| Theorems.OneReplyPerCall | src/client.rs:870-900 | in every reachable state each CALL received in the run was answered at most once, under its own id, and no SEND was |
| Wire.AnswersMatchRun | src/client.rs:1040-1071 | in every run the replies and pongs handled are exactly those received, in order, less the one about to be dispatched |
| Wire.InboundMatchesRun | src/client.rs:1005-1095 | in every run what entered the answering registry is exactly the CALLs received and what entered the other exactly the SENDs, in order, less the one about to be dispatched; nothing else enters either |
| Theorems.RedialKeepsRequestsAndHandlers | src/client.rs:370-425 | no redial step touches pending requests or registrations |
| Theorems.ReconnectNeverMissed | src/client.rs:413-420 | in every reachable state callbacks begun and tokens set together never exceed the swaps since subscribing, plus the window's one, and an unheard swap has its token latched or its notification under way |
| Theorems.NoHotRedialLoop | src/client.rs:281-286 | in every reachable state the dial-rate account holds |
| Theorems.AccountMatchesRun | src/client.rs:389-425 | over any stretch of a run with no inbound event, the counted dials and wakes are exactly those of the run |
| Theorems.DialRateInRun | src/client.rs:389-425 | in every run, after an inbound event and until the next, d dials against w wakes, those notified since and one latched before, take at least half of the first d - w delays of a growing policy |
| Theorems.DialRateFromStart | src/client.rs:281-286 | the same before the first event: a peer that accepts and closes at once and never sends anything is dialled no faster |
| Theorems.KeepaliveExact | src/client.rs:912-971 | in every reachable state redials were forced at exactly the allowed miss, each was notified to the read loop exactly once while the client is open, and no wait is stale |
| Theorems.DetectionInRun | src/client.rs:932-966 | in every run, from the last answer, observed reconfiguration or force to the decision to force a redial, with no interval stored in between: the clock advances by at least the allowance times interval, and by at most the allowance times interval plus pong deadline, apart from time in which no timer of the loop was running |
| Theorems.TimersUntilDetection | src/client.rs:932-966 | over that stretch exactly the allowed number of intervals ended and at most as many pong deadlines passed |
| Theorems.EveryDeadlineIsATimeOut | src/client.rs:651-659 | in every run each deadline of a keepalive ping that passed is one ping logged as timed out, the one being forgotten excepted |
| Theorems.HandlersRetire | src/client.rs:464-611 | in every reachable state, in both registries, mapped channels are open and every task's channel is mapped or closed, except the one being replaced |
| Theorems.RetiredTasksEnd | src/client.rs:464-611 | in every run and both registries a retired handler task takes at most its debt in steps and has then ended |
| Theorems.NoFrameDisappears | src/client.rs:1006-1095 | in every run an inbound CALL or SEND handed over is answered, queued, in work, or was given up on by an earlier step |
| Theorems.EngineLocksMove | src/client.rs:464-611 | in every reachable state whoever is in the middle of a registration, of a check under a queue lock or of a notification round can take its next step |
| Theorems.NobodyIsStuck | src/client.rs:454-868 | in every reachable state every unfinished call, ping, handler task, `wait_for` call and subscriber can step, has nothing to do, or waits for a step that is enabled |
| Reassembly.ReadHandshake | crates/ocpp-transport-embassy-net/src/transport.rs:135-160 | on success the accepted response is exactly the bytes read and the leftover exactly what the handshake did not consume; it never gives up on an acceptable response it has read |
| Reassembly.WsStream.Decode | crates/ocpp-transport-embassy-net/src/transport.rs:396-441 | one decoder turn updates the fields in place as the value-level step does |
| Reassembly.WsStream.Take | crates/ocpp-transport-embassy-net/src/transport.rs:383-443 | every turn, a drop included, updates the fields in place as the value-level step does |
| Reassembly.CancelSafe | src/transport.rs:65-77 | for every chunking, decoder and schedule, dropping and re-calling `recv` yields the same outcomes as never dropping it |
| Reassembly.BytesConserved | crates/ocpp-transport-embassy-net/src/transport.rs:384-401 | leftover and read bytes equal consumed bytes followed by pending bytes, whatever was dropped |
| Reassembly.AllBytesConserved | crates/ocpp-transport-embassy-net/src/transport.rs:135-401 | all bytes read from the socket are those the handshake consumed, then those the decoder consumed, then the pending ones |
| Reassembly.ReadsOnlyWhenEmpty | crates/ocpp-transport-embassy-net/src/transport.rs:383-394 | `recv` never reads from the socket while bytes are pending |
| Reassembly.StuckStaysStuck | crates/ocpp-transport-embassy-net/src/transport.rs:383-401 | a decoder that refuses the pending bytes without changing state makes every later `recv` of the stream fail, with no byte read and nothing changed |
| Reassembly.AdvancesIffNotStuck | crates/ocpp-transport-embassy-net/src/transport.rs:383-401 | for a decoder whose pieces consume a byte or change it, a stream with pending bytes has a schedule that changes what is pending or the decoder if and only if the decoder does not refuse those bytes as they stand |
| Reassembly.WholeFrameDelivered | crates/ocpp-transport-embassy-net/src/transport.rs:383-421 | a two-byte frame that arrives in one read is delivered |
| Reassembly.SplitFrameSticks | crates/ocpp-transport-embassy-net/src/transport.rs:369-401 | the same frame in two reads is not: the stream is stuck after the first byte |
| Reassembly.PieceDelivers | crates/ocpp-transport-embassy-net/src/transport.rs:403-441 | a decoded piece returns exactly its contribution and control frames leave the unfinished message intact |
| Reassembly.FramesReassembled | crates/ocpp-transport-embassy-net/src/transport.rs:362-445 | each text frame is the concatenation of its own fragments, in order, over every schedule |
| Locks.EveryRoutineDisciplined | src/client.rs:335-345 | every routine takes a mutex only while holding none, or the decoder's inside the sink's, releases the latest first, and calls back only while holding none |
| Locks.NoDeadlock | src/client.rs:1015-1054 | in every reachable state of any number of tasks, user callbacks calling the client included, each holds at most one mutex, or the sink's and a decoder's, none in a callback; the holder a blocked task waits for can step, or waits for a decoder's mutex whose holder can |

## Left out

- Locks.EveryRoutineDisciplined: the lock script of each routine is written out by hand beside the engine, not derived from its steps; the locks the engine itself has are covered by `Theorems.EngineLocksMove`.
- Locks.NoDeadlock: over those scripts, so the order of lock operations inside a routine is as written there.
- Timers of calls and of pings other than the keepalive loop's: when they fire is not tied to the engine's clock.
- Engine: acquiring the sink lock and the transport operation under it are one step, so a write in progress during other steps is not visible.
- `on_ping` subscribers and the echo of an inbound ping's payload: the same broadcast registry and one write; only easy members.
- `send_notification`: a closed check and one write.
- `src/connect.rs` and `src/transport/websocket.rs`: sockets, TLS, headers and option forwarding.
- The generated per-version actions and the error code tables: thin wrappers and finite lookups.
- JSON text, UUID generation and WebSocket framing: frames arrive classified, ids are fresh, the decoder is a parameter.
- The board crate, the task pool and the unsafe `Send`/`Sync` assertions.
- Liveness beyond counted steps: that the executor and the transport eventually let a task proceed.
