/**
 * The one synchronisation rule every mirror in the client follows: a fetch replaces the local list
 * wholesale with the server's, an absent list field reads as empty, and a failed fetch keeps what
 * was there.
 */
module Sync {
  import opened Wrappers
  import opened Api

  /** The list a mirror holds after a fetch whose reply carries an optional list field. */
  function Reconciled<T>(prev: seq<T>, reply: Reply<Option<seq<T>>>): (r: seq<T>)
    ensures reply.Failed? ==> r == prev
    ensures reply.Ok? && reply.body.Some? ==> r == reply.body.value
    ensures reply.Ok? && reply.body.None? ==> r == []
  {
    match reply
    case Ok(listed) => listed.GetOr([])
    case Failed(_) => prev
  }

  /** A successful fetch forgets the local state: whatever was held before, the result is the same. */
  lemma SuccessIgnoresLocalState<T>(prev: seq<T>, other: seq<T>, reply: Reply<Option<seq<T>>>)
    requires reply.Ok?
    ensures Reconciled(prev, reply) == Reconciled(other, reply)
  {
  }

  /** Applying the same reply twice is the same as applying it once. */
  lemma ReconcileIdempotent<T>(prev: seq<T>, reply: Reply<Option<seq<T>>>)
    ensures Reconciled(Reconciled(prev, reply), reply) == Reconciled(prev, reply)
  {
  }
}
