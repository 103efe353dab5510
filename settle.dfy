/** `settlePromise`: turns the outcome of a promise into a tagged record, so that the
    caller branches on a `status` tag instead of catching a rejection. */
module Settle {
  import opened Js

  /** How a promise settled: with a value, or with a rejection reason. */
  datatype Outcome<T, E> = Fulfilled(value: T) | Rejected(reason: E)

  /** The record `settlePromise` resolves to: `{status: 'fulfilled', value}` or
      `{status: 'rejected', reason}`. A field the record does not carry is `None`. */
  datatype Settled<T, E> = Settled(status: string, value: Option<T>, reason: Option<E>)

  /** The record carries exactly one of the two tags, and exactly the field that tag announces. */
  predicate WellTagged<T, E>(r: Settled<T, E>) {
    || (r.status == "fulfilled" && r.value.Some? && r.reason.None?)
    || (r.status == "rejected" && r.reason.Some? && r.value.None?)
  }

  /** `settlePromise(promise)`: total, never rejects, keeps the value or the reason. */
  function SettlePromise<T, E>(p: Outcome<T, E>): (r: Settled<T, E>)
    ensures WellTagged(r)
    ensures r.status == "fulfilled" <==> p.Fulfilled?
    ensures r.status == "rejected" <==> p.Rejected?
    ensures p.Fulfilled? ==> r.value == Some(p.value)
    ensures p.Rejected? ==> r.reason == Some(p.reason)
  {
    match p
    case Fulfilled(v) => Settled("fulfilled", Some(v), None)
    case Rejected(e) => Settled("rejected", None, Some(e))
  }

  /** Reads a tagged record back as the outcome it records. */
  function Unsettle<T, E>(r: Settled<T, E>): Outcome<T, E>
    requires WellTagged(r)
  {
    if r.status == "fulfilled" then Fulfilled(r.value.value) else Rejected(r.reason.value)
  }

  /** Nothing is lost: the outcome can be recovered from the record. */
  lemma SettleThenUnsettle<T, E>(p: Outcome<T, E>)
    ensures Unsettle(SettlePromise(p)) == p
  {
  }

  /** Every well-tagged record is the result of settling some outcome. */
  lemma UnsettleThenSettle<T, E>(r: Settled<T, E>)
    requires WellTagged(r)
    ensures SettlePromise(Unsettle(r)) == r
  {
  }

  /** The caller's single test `status === 'rejected'` separates the two cases: when it
      fails, the record is the fulfilled one and carries the promised value. */
  lemma RejectedTestIsExhaustive<T, E>(p: Outcome<T, E>)
    ensures SettlePromise(p).status != "rejected" ==>
              SettlePromise(p).status == "fulfilled" && p.Fulfilled? &&
              SettlePromise(p).value == Some(p.value)
    ensures SettlePromise(p).status == "rejected" ==> p.Rejected? && SettlePromise(p).value.None?
  {
  }
}
