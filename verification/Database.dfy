/** What every service shares: surrogate keys, optional columns, and the commit-or-rollback session. */
module Database {

  /** Primary keys. The program draws them with uuid4; here a request receives its draws as arguments. */
  type Uuid = nat

  predicate Distinct<T(==)>(s: seq<T>) {
    forall i, j :: 0 <= i < j < |s| ==> s[i] != s[j]
  }

  datatype Option<+T> = None | Some(value: T)

  /** An expiry instant that has gone by. */
  predicate IsPast(expiresAt: Option<int>, now: int) { expiresAt.Some? && expiresAt.value < now }

  /** How a request ends: normally, or with an exception. */
  datatype Outcome<+E> = Committed | Raised(error: E)

  /** The session around each request: commit after a normal return, roll back and re-raise otherwise. */
  function Settle<S, E>(before: S, after: S, outcome: Outcome<E>): S {
    if outcome.Committed? then after else before
  }
}
