/**
 * The value-level side of the wait list: the state of a wait node's ready flag,
 * the context a waiter is registered with, the tag-equality predicate that
 * notify_waiters hands to the wait list, and what a notification or a
 * cancellation does to the list of registered waiters.
 */
module Waiters {

  /** wait_node::node_state: the atomic ready flag of a wait node. */
  datatype NodeState = NotReady | Ready

  /** extended_context: what a waiter was registered with; uniq_ctx is the wait-context tag. */
  datatype ExtendedContext = ExtendedContext(uniqCtx: nat)

  /** The lambda in notify_waiters: a waiter is related when its context carries the tag. */
  predicate IsRelatedWaitCtx(tag: nat, context: ExtendedContext)
  {
    tag == context.uniqCtx
  }

  /**
   * Notifying the waiters that satisfy IsRelatedWaitCtx(tag, _) splits the wait list
   * into the woken waiters and those that stay registered: only related waiters are
   * woken and only unrelated ones stay.
   */
  function NotifySplit<W(==)>(waiters: seq<W>, contextOf: W -> ExtendedContext, tag: nat): (r: (seq<W>, seq<W>))
    ensures forall i :: 0 <= i < |r.0| ==> IsRelatedWaitCtx(tag, contextOf(r.0[i]))
    ensures forall i :: 0 <= i < |r.1| ==> !IsRelatedWaitCtx(tag, contextOf(r.1[i]))
  {
    if waiters == [] then ([], [])
    else
      var w := waiters[0];
      var rest := NotifySplit(waiters[1..], contextOf, tag);
      if IsRelatedWaitCtx(tag, contextOf(w)) then ([w] + rest.0, rest.1)
      else (rest.0, [w] + rest.1)
  }

  /** A notification loses no waiter and duplicates none. */
  lemma {:induction false} NotifySplitKeepsEveryWaiter<W>(waiters: seq<W>, contextOf: W -> ExtendedContext, tag: nat)
    ensures multiset(NotifySplit(waiters, contextOf, tag).0) + multiset(NotifySplit(waiters, contextOf, tag).1)
            == multiset(waiters)
  {
    if waiters != [] {
      NotifySplitKeepsEveryWaiter(waiters[1..], contextOf, tag);
      assert waiters == [waiters[0]] + waiters[1..];
    }
  }

  /**
   * cancel_wait: the node leaves the wait list; every other waiter stays,
   * with its multiplicity.
   */
  function Without<W(==)>(waiters: seq<W>, node: W): (r: seq<W>)
    ensures node !in r
    ensures multiset(r) == multiset(waiters)[node := 0]
  {
    if waiters == [] then []
    else
      var rest := Without(waiters[1..], node);
      assert waiters == [waiters[0]] + waiters[1..];
      if waiters[0] == node then rest else [waiters[0]] + rest
  }

  /**
   * No missed wake-up: every registered waiter whose context carries the tag is
   * among the woken ones, every other waiter stays registered, and the two parts
   * together are exactly as many as were registered.
   */
  lemma NotifyWakesExactlyTheRelated<W>(waiters: seq<W>, contextOf: W -> ExtendedContext, tag: nat, i: nat)
    requires i < |waiters|
    ensures contextOf(waiters[i]).uniqCtx == tag ==> waiters[i] in NotifySplit(waiters, contextOf, tag).0
    ensures contextOf(waiters[i]).uniqCtx != tag ==> waiters[i] in NotifySplit(waiters, contextOf, tag).1
    ensures |NotifySplit(waiters, contextOf, tag).0| + |NotifySplit(waiters, contextOf, tag).1| == |waiters|
  {
    var r := NotifySplit(waiters, contextOf, tag);
    NotifySplitKeepsEveryWaiter(waiters, contextOf, tag);
    var w := waiters[i];
    assert w in multiset(waiters);
    assert w in multiset(r.0) || w in multiset(r.1);
    if w in r.1 {
      var j :| 0 <= j < |r.1| && r.1[j] == w;
      assert !IsRelatedWaitCtx(tag, contextOf(r.1[j]));
    }
    if w in r.0 {
      var j :| 0 <= j < |r.0| && r.0[j] == w;
      assert IsRelatedWaitCtx(tag, contextOf(r.0[j]));
    }
    assert |multiset(r.0) + multiset(r.1)| == |multiset(waiters)|;
  }

}
