/** The arithmetic of consecutive backoff rounds: how long they last and how many were cut short. */
module RedialRate {
  import opened Prelude
  import Backoff

  /** A finished backoff round: the attempt number it was computed from, the random fraction that
      jittered it, and whether a wake cut it short. */
  datatype Round = Round(attempt: nat, fraction: U32, cut: bool)

  function Length(p: Backoff.Policy, r: Round): nat {
    Backoff.Jittered(p, r.attempt, r.fraction)
  }

  /** The attempt number of the i-th round in a row. */
  function AttemptOf(i: nat): nat {
    Min(i, U32_MAX)
  }

  ghost predicate InOrder(rounds: seq<Round>) {
    forall i :: 0 <= i < |rounds| ==> rounds[i].attempt == AttemptOf(i)
  }

  function Cuts(rounds: seq<Round>): (n: nat)
    ensures n <= |rounds|
  {
    if rounds == [] then 0
    else Cuts(rounds[..|rounds| - 1]) + One(rounds[|rounds| - 1].cut)
  }

  /** Total length of the rounds that ran to their end. */
  function UncutTime(p: Backoff.Policy, rounds: seq<Round>): nat {
    if rounds == [] then 0
    else
      var last := rounds[|rounds| - 1];
      UncutTime(p, rounds[..|rounds| - 1]) + if last.cut then 0 else Length(p, last)
  }

  /** Half of each capped exponential delay, summed over the rounds that ran to their end. */
  function UncutHalves(p: Backoff.Policy, rounds: seq<Round>): nat {
    if rounds == [] then 0
    else
      var n := |rounds| - 1;
      UncutHalves(p, rounds[..n]) + if rounds[n].cut then 0 else Backoff.Delay(p, AttemptOf(n)) / 2
  }

  /** Half of each of the first `n` delays. */
  function FirstHalves(p: Backoff.Policy, n: nat): nat {
    if n == 0 then 0 else FirstHalves(p, n - 1) + Backoff.Delay(p, AttemptOf(n - 1)) / 2
  }

  /** The policies whose delays never shrink (`Backoff.DelayMonotoneIff`). */
  predicate Growing(p: Backoff.Policy) {
    p.initialDelay == 0 || (p.multiplier >= 1 && p.initialDelay <= p.maxDelay)
  }

  lemma Snoc(p: Backoff.Policy, rounds: seq<Round>, r: Round)
    ensures Cuts(rounds + [r]) == Cuts(rounds) + One(r.cut)
    ensures UncutTime(p, rounds + [r]) == UncutTime(p, rounds) + if r.cut then 0 else Length(p, r)
  {
    assert (rounds + [r])[..|rounds|] == rounds;
  }

  lemma {:induction false} TimeAtLeastHalves(p: Backoff.Policy, rounds: seq<Round>)
    requires InOrder(rounds)
    ensures UncutTime(p, rounds) >= UncutHalves(p, rounds)
  {
    if rounds != [] {
      TimeAtLeastHalves(p, rounds[..|rounds| - 1]);
    }
  }

  /** With growing delays, whichever rounds were cut, the others last at least as long as the
      shortest ones would. */
  lemma {:induction false} HalvesAtLeastFirst(p: Backoff.Policy, rounds: seq<Round>)
    requires Growing(p)
    ensures UncutHalves(p, rounds) >= FirstHalves(p, |rounds| - Cuts(rounds))
  {
    if rounds != [] {
      var n := |rounds| - 1;
      HalvesAtLeastFirst(p, rounds[..n]);
      if !rounds[n].cut {
        Backoff.DelayMonotoneIff(p);
        assert Backoff.Delay(p, AttemptOf(n - Cuts(rounds[..n]))) <= Backoff.Delay(p, AttemptOf(n));
      }
    }
  }

  lemma {:induction false} FirstHalvesMonotone(p: Backoff.Policy, m: nat, n: nat)
    requires m <= n
    ensures FirstHalves(p, m) <= FirstHalves(p, n)
    decreases n - m
  {
    if m < n {
      FirstHalvesMonotone(p, m, n - 1);
    }
  }
}
