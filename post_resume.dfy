/**
 * The thread data's single post-resume slot as a value: which deferred action is
 * pending and its argument, how an action is recorded before a context switch and
 * consumed after it, and the three outcomes of the register_waiter action.
 */
module PostResume {

  import opened Options
  import opened Waiters

  /** thread_data::post_resume_action. */
  datatype Action = NoAction | RegisterWaiter | Callback | Cleanup | Notify

  /** my_post_resume_action with my_post_resume_arg (None stands for nullptr). */
  datatype Slot<A> = Slot(action: Action, arg: Option<A>)

  /** Nothing is pending: the state every switch must leave behind. */
  predicate IsClear<A>(s: Slot<A>)
  {
    s.action == NoAction && s.arg == None
  }

  /** An action and its argument are waiting to run after the next switch. */
  predicate IsPending<A>(s: Slot<A>)
  {
    s.action != NoAction && s.arg.Some?
  }

  /** The pending action and argument as a sequence of zero or one entries. */
  function PendingEntries<A>(s: Slot<A>): (r: seq<(Action, A)>)
    ensures |r| <= 1
    ensures IsPending(s) <==> r != []
  {
    if IsPending(s) then [(s.action, s.arg.value)] else []
  }

  /** set_post_resume_action: only an empty slot accepts an action, and only a real one. */
  function Record<A>(s: Slot<A>, action: Action, arg: A): (r: Slot<A>)
    requires IsClear(s) && action != NoAction
    ensures IsPending(r)
    ensures PendingEntries(r) == [(action, arg)]
  {
    Slot(action, Some(arg))
  }

  /**
   * do_post_resume_action as seen by the slot: the pending action is handed out
   * and the slot is left empty, on every branch.
   */
  function Consume<A>(s: Slot<A>): (r: (Slot<A>, (Action, A)))
    requires IsPending(s)
    ensures IsClear(r.0)
    ensures PendingEntries(s) == [r.1]
  {
    (Slot(NoAction, None), (s.action, s.arg.value))
  }

  /** What one thread does to its slot: record an action, or switch and consume it. */
  datatype SlotOp<A> = SetAction(action: Action, arg: A) | Switch

  /** The actions recorded by a sequence of operations, in order. */
  function Recorded<A>(ops: seq<SlotOp<A>>): seq<(Action, A)>
  {
    if ops == [] then []
    else if ops[0].SetAction? then [(ops[0].action, ops[0].arg)] + Recorded(ops[1..])
    else Recorded(ops[1..])
  }

  /** How many context switches a sequence of operations performs. */
  function Switches<A>(ops: seq<SlotOp<A>>): nat
  {
    if ops == [] then 0
    else (if ops[0].Switch? then 1 else 0) + Switches(ops[1..])
  }

  /**
   * Replays the operations from slot s. The result is the final slot and the
   * actions run after each switch, in order; None when an operation breaks the
   * slot's protocol (recording over a pending action, recording NoAction, or
   * switching with nothing pending).
   */
  function Replay<A>(s: Slot<A>, ops: seq<SlotOp<A>>): Option<(Slot<A>, seq<(Action, A)>)>
    decreases ops
  {
    if ops == [] then Some((s, []))
    else match ops[0]
      case SetAction(action, arg) =>
        if IsClear(s) && action != NoAction then Replay(Record(s, action, arg), ops[1..]) else None
      case Switch =>
        if IsPending(s) then
          var (s', ran) := Consume(s);
          match Replay(s', ops[1..])
          case None => None
          case Some((final, log)) => Some((final, [ran] + log))
        else None
  }

  /**
   * Each recorded action runs exactly once, in the order recorded, one per switch;
   * what has not run yet is exactly the action still pending at the end.
   */
  lemma {:induction false} EachActionRunsOnce<A>(s: Slot<A>, ops: seq<SlotOp<A>>)
    requires Replay(s, ops).Some?
    ensures PendingEntries(s) + Recorded(ops) == Replay(s, ops).value.1 + PendingEntries(Replay(s, ops).value.0)
    ensures |Replay(s, ops).value.1| == Switches(ops)
    decreases ops
  {
    if ops != [] {
      var rest := ops[1..];
      match ops[0]
      case SetAction(action, arg) =>
        var s' := Record(s, action, arg);
        EachActionRunsOnce(s', rest);
        assert PendingEntries(s) == [];
      case Switch =>
        var (s', ran) := Consume(s);
        EachActionRunsOnce(s', rest);
        assert PendingEntries(s') == [];
        var (final, log) := Replay(s', rest).value;
        assert Replay(s, ops).value == (final, [ran] + log);
        assert PendingEntries(s) + Recorded(ops) == [ran] + (log + PendingEntries(final));
    }
  }

  /** The three situations of the register_waiter action. */
  datatype WaiterOutcome =
    | ContextFinished  // the wait context no longer needs to wait: resume by ourselves
    | LostRace         // the wait context continues but the CAS failed: resume by ourselves
    | Committed        // the CAS succeeded: the waiter stays committed to the wait list

  /**
   * register_waiter: given whether the wait context still continues and the node's
   * ready flag on entry, the outcome and the flag afterwards. The CAS from NotReady
   * to Ready is attempted only when the context continues.
   */
  function RegisterWaiterOutcome(continues: bool, flag: NodeState): (r: (WaiterOutcome, NodeState))
    ensures r.0 == ContextFinished <==> !continues
    ensures r.0 == LostRace <==> continues && flag == Ready
    ensures r.0 == Committed <==> continues && flag == NotReady
    ensures r.0 == Committed ==> r.1 == Ready
    ensures r.0 != Committed ==> r.1 == flag
  {
    match (continues, flag)
    case (false, _) => (ContextFinished, flag)
    case (true, NotReady) => (Committed, Ready)
    case (true, Ready) => (LostRace, flag)
  }

  /** A waiter resumes itself exactly when it did not commit, so no wake-up is missed. */
  predicate ResumesItself(outcome: WaiterOutcome)
  {
    outcome != Committed
  }

}
