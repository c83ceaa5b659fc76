/**
 * The bounded retry loop the handlers share: attempts `1..attempts` are
 * made in turn, and the loop stops at the first attempt that succeeds, at
 * the first failure whose message is final, or at the last attempt.
 */
module Retry {
  import opened Wrappers

  /** No failure is final: every failure is retried while attempts remain. */
  predicate Never(message: string) { false }

  /**
   * The attempt at which the loop stops, starting from attempt `from`;
   * `outcome(j)` is `None` when attempt `j` succeeds and the exception's
   * message when it fails.
   */
  function StopAt(outcome: nat -> Option<string>, final: string -> bool, attempts: nat, from: nat := 1): (r: nat)
    requires 1 <= from <= attempts
    ensures from <= r <= attempts
    ensures forall j :: from <= j < r ==> outcome(j).Some? && !final(outcome(j).value)
    ensures r < attempts ==> outcome(r).None? || final(outcome(r).value)
    decreases attempts - from
  {
    if outcome(from).None? || final(outcome(from).value) || from == attempts then from
    else StopAt(outcome, final, attempts, from + 1)
  }

  /** The stopping attempt is the only one that follows every retried failure and ends the loop. */
  lemma {:induction false} StopAtUnique(outcome: nat -> Option<string>, final: string -> bool, attempts: nat, from: nat, r: nat)
    requires 1 <= from <= r <= attempts
    requires forall j :: from <= j < r ==> outcome(j).Some? && !final(outcome(j).value)
    requires r < attempts ==> outcome(r).None? || final(outcome(r).value)
    ensures StopAt(outcome, final, attempts, from) == r
    decreases attempts - from
  {
    if from < r {
      StopAtUnique(outcome, final, attempts, from + 1, r);
    }
  }

  /** With two attempts and nothing final, the loop stops at the first success, or after the second try. */
  lemma TwoAttempts(outcome: nat -> Option<string>)
    ensures StopAt(outcome, Never, 2) == if outcome(1).None? then 1 else 2
  {
  }
}
