/**
 * Waiters: the one-shot deferreds that callers of the scheduler await.
 *
 * A deferred is pending until the first call of its `resolve` or `reject`;
 * every later call is ignored, as for any promise.
 */
module Waiters {

  /** A value thrown while processing an image. */
  datatype Error =
    | Thrown(message: string)
      /** The TypeError raised when a processed job has no entry in its batch. */
    | MissingJob

  /** What a rejected deferred is rejected with: `{err, message}`. */
  datatype Reason = Reason(err: Error, message: string)

  /** A successful deferred is resolved with no value. */
  datatype Status = Pending | Resolved | Rejected(reason: Reason)

  /** No deferred of `before` that had settled has changed in `after`, and none has gone away. */
  ghost predicate SettledOnce(before: seq<Status>, after: seq<Status>)
  {
    |before| <= |after| &&
    forall d | 0 <= d < |before| && !before[d].Pending? :: after[d] == before[d]
  }

  /** Calls `resolve` (status `Resolved`) or `reject` (status `Rejected`) on deferred `d`. */
  function Settle(waiters: seq<Status>, d: nat, s: Status): (r: seq<Status>)
    requires !s.Pending?
    ensures SettledOnce(waiters, r) && |r| == |waiters|
    ensures d < |waiters| ==> !r[d].Pending?
    ensures d < |waiters| && waiters[d].Pending? ==> r[d] == s
    ensures forall i | 0 <= i < |waiters| && i != d :: r[i] == waiters[i]
  {
    if d < |waiters| && waiters[d].Pending? then waiters[d := s] else waiters
  }

  /** Settling is idempotent on a deferred: the first settlement wins over any later one. */
  lemma FirstSettlementWins(waiters: seq<Status>, d: nat, first: Status, second: Status)
    requires !first.Pending? && !second.Pending?
    ensures Settle(Settle(waiters, d, first), d, second) == Settle(waiters, d, first)
  {
  }

  /** Steps that each settle at most once compose into one that does. */
  lemma SettledOnceTransitive(a: seq<Status>, b: seq<Status>, c: seq<Status>)
    requires SettledOnce(a, b) && SettledOnce(b, c)
    ensures SettledOnce(a, c)
  {
  }
}
