/**
 Vocabulary shared by the cluster models: identities, versioned records and the
 conditional writes of the Coordination Store.

 A revision is the store's version token.  S3 derives it from the object's content,
 so here a revision IS the content: two revisions are equal exactly when the two
 contents are.  Nothing below relies on a token being unique per write.
 */
module Coordination {
  type NodeId = string
  type Address = string
  type SessionId = nat

  /** The node session that owns an Actor address. */
  datatype Owner = Owner(node: NodeId, session: SessionId)
  datatype OwnerRecord = OwnerRecord(owner: Option<Owner>, epoch: nat)

  /** A server's life cycle, as its dispatches see it. */
  datatype Status = Running | ShuttingDown | Stopped | Fenced

  datatype Option<+T> = None | Some(value: T)

  /** An S3 precondition: `If-None-Match: *`, or `If-Match: revision`. */
  datatype Condition<+T> = IfAbsent | IfMatch(revision: T)

  predicate Matches<K, V(==)>(stored: map<K, V>, key: K, condition: Condition<V>) {
    match condition
    case IfAbsent => key !in stored
    case IfMatch(revision) => key in stored && stored[key] == revision
  }

  function Lookup<K, V>(stored: map<K, V>, key: K): Option<V> {
    if key in stored then Some(stored[key]) else None
  }

  /** The precondition a writer derives from what it has just read. */
  function ConditionOn<V>(seen: Option<V>): Condition<V> {
    match seen
    case None => IfAbsent
    case Some(value) => IfMatch(value)
  }
}
