/**
 Keepalive parameters (src/keepalive.rs), the stored ping interval (src/client.rs) and the log of a
 keepalive task against which its miss counter is specified.
 */
module Keepalive {
  import opened Prelude
  import Backoff

  const MILLI: nat := 1_000_000

  datatype Policy = Policy(interval: Backoff.Duration, timeout: Option<Backoff.Duration>, maxMissed: U32)

  datatype Behavior = KeepaliveEnabled(policy: Policy) | KeepaliveDisabled

  const DEFAULT_POLICY := Policy(60_000 * MILLI, None, 2)

  function MissesAllowed(p: Policy): (n: nat)
    ensures 1 <= n <= U32_MAX
    ensures p.maxMissed <= n && (n == p.maxMissed || n == 1)
  {
    if p.maxMissed == 0 then 1 else p.maxMissed
  }

  function InitialInterval(b: Behavior): Option<Backoff.Duration> {
    if b.KeepaliveEnabled? && b.policy.interval != 0 then Some(b.policy.interval) else None
  }

  function PolicyOf(b: Behavior): Policy {
    if b.KeepaliveEnabled? then b.policy else DEFAULT_POLICY
  }

  /** What is stored: whole milliseconds, clamped to 32 bits, with zero for "off". */
  function StoredMillis(interval: Option<Backoff.Duration>): U32 {
    if interval.None? then 0 else Min(interval.value / MILLI, U32_MAX)
  }

  function LoadedInterval(millis: U32): Option<Backoff.Duration> {
    if millis == 0 then None else Some(millis * MILLI)
  }

  /** What the client reports back after an interval was set. It is off for every interval below
      one millisecond, not only for zero, and it is the requested interval exactly for whole
      milliseconds within 32 bits. */
  lemma SetThenReport(d: Backoff.Duration)
    ensures LoadedInterval(StoredMillis(Some(d))).None? <==> d < MILLI
    ensures LoadedInterval(StoredMillis(Some(d))) == Some(d) <==> d >= MILLI && d % MILLI == 0 && d <= U32_MAX * MILLI
    ensures LoadedInterval(StoredMillis(None)).None?
  {
  }

  // ------------------------------------------------------------------ the task's log

  /** What a keepalive task has done. A failed ping carries the interval waited before it and, if it was
      written and then ran into its pong deadline, that deadline's length; `Skipped` is an elapsed interval after which the stored value
      turned out to be off. */
  datatype Entry =
    | Answered
    | Failed(interval: nat, pong: Option<nat>)
    | Reconfigured
    | Skipped(interval: nat)
    | ForcedRedial

  function PongWait(pong: Option<nat>): nat {
    if pong.Some? then pong.value else 0
  }

  /** Consecutive failed pings since the last answered ping, observed reconfiguration or force. */
  function Misses(log: seq<Entry>): nat {
    if log == [] then 0
    else
      var n := |log| - 1;
      match log[n]
      case Failed(_, _) => Misses(log[..n]) + 1
      case Skipped(_) => Misses(log[..n])
      case _ => 0
  }

  /** Time spent in interval and pong waits over that same stretch. */
  function Waited(log: seq<Entry>): nat {
    if log == [] then 0
    else
      var n := |log| - 1;
      match log[n]
      case Failed(interval, pong) => Waited(log[..n]) + interval + PongWait(pong)
      case Skipped(interval) => Waited(log[..n]) + interval
      case _ => 0
  }

  lemma Snoc(log: seq<Entry>, e: Entry)
    ensures Misses(log + [e]) == match e
                                 case Failed(_, _) => Misses(log) + 1
                                 case Skipped(_) => Misses(log)
                                 case _ => 0
    ensures Waited(log + [e]) == match e
                                 case Failed(interval, pong) => Waited(log) + interval + PongWait(pong)
                                 case Skipped(interval) => Waited(log) + interval
                                 case _ => 0
  {
    assert (log + [e])[..|log|] == log;
  }

  /** The stretch of the log that `Misses` and `Waited` speak about. */
  function StretchStart(log: seq<Entry>): (from: nat)
    ensures from <= |log|
  {
    if log == [] then 0
    else
      var n := |log| - 1;
      if log[n].Failed? || log[n].Skipped? then StretchStart(log[..n]) else |log|
  }

  /** With one interval in force throughout the stretch, the time to the current miss count is at most
      that many rounds of one interval and one pong deadline. */
  lemma {:induction false} WaitedBound(log: seq<Entry>, interval: nat, timeout: nat)
    requires forall i :: StretchStart(log) <= i < |log| ==>
               log[i].Failed? && log[i].interval <= interval && PongWait(log[i].pong) <= timeout
    ensures Waited(log) <= Misses(log) * (interval + timeout)
  {
    if log != [] && StretchStart(log) < |log| {
      var n := |log| - 1;
      assert StretchStart(log[..n]) == StretchStart(log);
      WaitedBound(log[..n], interval, timeout);
      assert (Misses(log[..n]) + 1) * (interval + timeout)
          == Misses(log[..n]) * (interval + timeout) + interval + timeout;
    }
  }
}
