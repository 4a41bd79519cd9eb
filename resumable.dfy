/**
 * Resumable tasks (src/tbb/task.cpp) over heap objects: the thread data with its
 * post-resume slot, task dispatchers with their suspend points, the arena's
 * reference count, coroutine cache and resume stream, and the wait list.
 *
 * The stack switch of task_dispatcher::resume is an abstract transfer of
 * control: the target dispatcher was itself left inside its own resume call
 * (or is a new coroutine about to start), so after the switch the thread goes
 * on with the target's resume tail, which consumes the pending post-resume
 * action. Dispatcher.Resume therefore ends by running target.Land().
 */
module Resumable {

  import opened Options
  import opened Waiters
  import opened PostResume
  import ArenaState

  /** A foreign code or data pointer handed through suspend; 0 is nullptr. */
  type Pointer = nat

  const Null: Pointer := 0

  /** The part of the market used here: its wait list and the worker stack size. */
  class Market {
    const waitList: WaitList
    const workerStackSize: nat

    constructor (waitList: WaitList, workerStackSize: nat)
      ensures this.waitList == waitList && this.workerStackSize == workerStackSize
    {
      this.waitList := waitList;
      this.workerStackSize := workerStackSize;
    }
  }

  class Arena {
    const market: Market
    var externalRefs: nat                 // the ref_external part of my_references
    var coCache: seq<Dispatcher>          // my_co_cache; the last element is popped next
    var resumeStream: seq<SuspendPoint>   // my_resume_task_stream, lanes merged
    var advertised: nat                   // advertise_new_work<wakeup> calls so far

    constructor (market: Market, externalRefs: nat)
      ensures this.market == market
      ensures State() == ArenaState.ArenaView(externalRefs, [], [], 0)
    {
      this.market := market;
      this.externalRefs := externalRefs;
      coCache, resumeStream, advertised := [], [], 0;
    }

    function State(): ArenaState.ArenaView<Dispatcher, SuspendPoint>
      reads this
    {
      ArenaState.ArenaView(externalRefs, coCache, resumeStream, advertised)
    }

    /** my_references += ref_external */
    method AddExternalRef()
      modifies this
      ensures State() == ArenaState.AddExternalRef(old(State()))
    {
      externalRefs := externalRefs + 1;
    }

    /** on_thread_leaving<ref_external> */
    method OnThreadLeaving()
      requires externalRefs > 0
      modifies this
      ensures State() == ArenaState.ReleaseExternalRef(old(State()))
    {
      externalRefs := externalRefs - 1;
    }

    method CoCachePop() returns (d: Dispatcher?)
      modifies this
      ensures (State(), AsOption(d)) == ArenaState.CachePop(old(State()))
    {
      if coCache == [] {
        d := null;
      } else {
        d := coCache[|coCache| - 1];
        coCache := coCache[..|coCache| - 1];
      }
    }

    method CoCachePush(d: Dispatcher)
      modifies this
      ensures State() == ArenaState.CachePush(old(State()), d)
    {
      coCache := coCache + [d];
    }

    method PushResumeTask(sp: SuspendPoint)
      modifies this
      ensures State() == ArenaState.PushResumeTask(old(State()), sp)
    {
      resumeStream := resumeStream + [sp];
    }

    method AdvertiseNewWork()
      modifies this
      ensures State() == ArenaState.AdvertiseNewWork(old(State()))
    {
      advertised := advertised + 1;
    }
  }

  /** A nullable dispatcher pointer as an Option. */
  function AsOption(d: Dispatcher?): Option<Dispatcher>
  {
    if d == null then None else Some(d as Dispatcher)
  }

  class ArenaSlot {
    const defaultDispatcher: Dispatcher   // my_default_task_dispatcher

    constructor (defaultDispatcher: Dispatcher)
      ensures this.defaultDispatcher == defaultDispatcher
    {
      this.defaultDispatcher := defaultDispatcher;
    }
  }

  /** suspend_point_type: its resume task targets one dispatcher; the coroutine context is not modelled. */
  class SuspendPoint {
    const arena: Arena
    const target: Dispatcher     // m_resume_task.m_target
    const stackSize: nat         // stack size of m_co_context; 0 means the thread's own stack
    var isOwnerRecalled: bool    // m_is_owner_recalled

    constructor (arena: Arena, target: Dispatcher, stackSize: nat)
      ensures this.arena == arena && this.target == target && this.stackSize == stackSize
      ensures !isOwnerRecalled
    {
      this.arena := arena;
      this.target := target;
      this.stackSize := stackSize;
      isOwnerRecalled := false;
    }
  }

  /** wait_context: execution continues while outstanding work remains. */
  class WaitContext {
    var refCount: nat

    constructor (refCount: nat)
      ensures this.refCount == refCount
    {
      this.refCount := refCount;
    }

    function ContinueExecution(): bool
      reads this
    {
      refCount > 0
    }
  }

  /** A wait node registered by prepare_wait: not ready until it commits or is notified. */
  class WaitNode {
    const context: ExtendedContext
    const suspendPoint: SuspendPoint   // my_suspend_point
    var readyFlag: NodeState           // my_ready_flag

    constructor (context: ExtendedContext, suspendPoint: SuspendPoint)
      ensures this.context == context && this.suspendPoint == suspendPoint
      ensures readyFlag == NotReady
    {
      this.context := context;
      this.suspendPoint := suspendPoint;
      readyFlag := NotReady;
    }

    /** my_ready_flag.compare_exchange_strong(not_ready, ready) */
    method CompareExchangeReady() returns (exchanged: bool)
      modifies this
      ensures exchanged <==> old(readyFlag) == NotReady
      ensures readyFlag == Ready
    {
      exchanged := readyFlag == NotReady;
      readyFlag := Ready;
    }
  }

  /**
   * What the arena's coroutine cache holds: detached dispatchers that already
   * have a suspend point, none of them the slot's default dispatcher `def`, and
   * none cached twice.
   */
  predicate CachedCoroutines(a: Arena, def: Dispatcher)
    reads a, set d | d in a.coCache
  {
    && (forall i :: 0 <= i < |a.coCache| ==>
          a.coCache[i].threadData == null && a.coCache[i].suspendPoint != null && a.coCache[i] != def)
    && (forall i, j :: 0 <= i < j < |a.coCache| ==> a.coCache[i] != a.coCache[j])
  }

  function ContextOf(node: WaitNode): ExtendedContext
  {
    node.context
  }

  /** The market's wait list, as the sequence of registered nodes. */
  class WaitList {
    var waiters: seq<WaitNode>

    constructor ()
      ensures waiters == []
    {
      waiters := [];
    }

    method CancelWait(node: WaitNode)
      modifies this
      ensures waiters == Without(old(waiters), node)
    {
      waiters := Without(waiters, node);
    }

    /** notify(predicate) with the tag-equality predicate of notify_waiters. */
    method Notify(tag: nat) returns (woken: seq<WaitNode>)
      modifies this
      ensures (woken, waiters) == NotifySplit(old(waiters), ContextOf, tag)
    {
      var split := NotifySplit(waiters, ContextOf, tag);
      woken, waiters := split.0, split.1;
    }
  }

  /** register_waiter_data */
  datatype RegisterWaiterData = RegisterWaiterData(wo: WaitContext, node: WaitNode)

  /** suspend_callback_wrapper: calling it runs callback(userCallback, suspendPoint). */
  datatype CallbackWrapper = CallbackWrapper(callback: Pointer, userCallback: Pointer, suspendPoint: SuspendPoint)

  /** What my_post_resume_arg points to, one case per action. */
  datatype PostResumeArg =
    | WaiterData(data: RegisterWaiterData)
    | CallbackData(wrapper: CallbackWrapper)
    | CoroutineToCleanup(dispatcher: Dispatcher)
    | RecallFlag(owner: SuspendPoint)   // the m_is_owner_recalled flag of owner

  /** The argument has the type its action casts it to. */
  predicate ArgMatches(action: Action, arg: PostResumeArg)
  {
    match action
    case NoAction => false
    case RegisterWaiter => arg.WaiterData?
    case Callback => arg.CallbackData?
    case Cleanup => arg.CoroutineToCleanup?
    case Notify => arg.RecallFlag?
  }

  /** Which branch ran; a callback is reported with the wrapper it invokes (user code is not modelled). */
  datatype ActionResult =
    | Waited(outcome: WaiterOutcome)
    | CallbackInvoked(wrapper: CallbackWrapper)
    | CleanedUp
    | Notified

  /** The objects a post-resume action may change, for a thread attached to `arena`. */
  function ArgFootprint(arena: Arena, arg: PostResumeArg): set<object>
  {
    match arg
    case WaiterData(data) =>
      {data.node, data.node.suspendPoint.arena, data.node.suspendPoint.arena.market.waitList}
    case CallbackData(_) => {}
    case CoroutineToCleanup(_) => {arena}
    case RecallFlag(owner) => {owner}
  }

  /**
   * The effect of running `arg`'s action on thread data td, between the old and
   * the current state. The notify action's store to the flag is stated by the
   * callers, because the resume tail may clear that flag again.
   */
  twostate predicate PostResumeEffect(td: ThreadData, arg: PostResumeArg, new result: ActionResult)
    reads td, td.arena, ArgFootprint(td.arena, arg),
          if arg.WaiterData? then {arg.data.wo, arg.data.node.suspendPoint.target} else {}
  {
    match arg
    case WaiterData(data) =>
      var node := data.node;
      var sp := node.suspendPoint;
      var waitList := sp.arena.market.waitList;
      && result.Waited?
      && (result.outcome, node.readyFlag) == RegisterWaiterOutcome(old(data.wo.ContinueExecution()), old(node.readyFlag))
      && (if ResumesItself(result.outcome) then
            && waitList.waiters == Without(old(waitList.waiters), node)
            && sp.arena.State() == ArenaState.ResumeSuspendPoint(old(sp.arena.State()), sp, sp.target.criticalTaskAllowed)
          else
            && waitList.waiters == old(waitList.waiters)
            && sp.arena.State() == old(sp.arena.State()))
    case CallbackData(wrapper) => result == CallbackInvoked(wrapper)
    case CoroutineToCleanup(d) =>
      && result == CleanedUp
      && old(td.arena.externalRefs) > 0
      && td.arena.State() == ArenaState.CleanupCoroutine(old(td.arena.State()), d)
    case RecallFlag(_) => result == Notified
  }

  /**
   * The register_waiter action: commit the waiter to the wait list by setting its
   * node ready, unless the wait context has finished or a notifier set the node
   * ready first; in those two cases cancel the wait and resume the suspend point.
   */
  method RegisterWaiterAction(data: RegisterWaiterData) returns (outcome: WaiterOutcome)
    requires data.node.suspendPoint.target.threadData == null
    modifies data.node, data.node.suspendPoint.arena, data.node.suspendPoint.arena.market.waitList
    ensures var node := data.node;
            var sp := node.suspendPoint;
            var waitList := sp.arena.market.waitList;
            && (outcome, node.readyFlag) == RegisterWaiterOutcome(old(data.wo.ContinueExecution()), old(node.readyFlag))
            && (if ResumesItself(outcome) then
                  && waitList.waiters == Without(old(waitList.waiters), node)
                  && sp.arena.State() == ArenaState.ResumeSuspendPoint(old(sp.arena.State()), sp, sp.target.criticalTaskAllowed)
                else
                  && waitList.waiters == old(waitList.waiters)
                  && sp.arena.State() == old(sp.arena.State()))
  {
    var node := data.node;
    var finished := !data.wo.ContinueExecution();
    var committed := false;
    if !finished {
      committed := node.CompareExchangeReady();
    }
    if !committed {
      node.suspendPoint.arena.market.waitList.CancelWait(node);
      Resume(node.suspendPoint);
    }
    outcome := if finished then ContextFinished else if committed then Committed else LostRace;
  }

  class ThreadData {
    var dispatcher: Dispatcher?          // my_task_dispatcher
    const arena: Arena                   // my_arena
    const slot: ArenaSlot?               // my_arena_slot
    var action: Action                   // my_post_resume_action
    var arg: Option<PostResumeArg>       // my_post_resume_arg

    constructor (arena: Arena, slot: ArenaSlot?)
      ensures this.arena == arena && this.slot == slot
      ensures dispatcher == null && IsClear(PendingSlot())
    {
      this.arena := arena;
      this.slot := slot;
      dispatcher := null;
      action, arg := NoAction, None;
    }

    function PendingSlot(): Slot<PostResumeArg>
      reads this
    {
      Slot(action, arg)
    }

    function ActionFootprint(): set<object>
      reads this
    {
      if arg.Some? then ArgFootprint(arena, arg.value) else {}
    }

    /**
     * What do_post_resume_action needs: a pending action with a non-null argument
     * of the matching type; a waiter's dispatcher detached (resume asserts it) and,
     * for cleanup, the coroutine's reference still held and the coroutine itself
     * detached, with its suspend point, neither the slot's default dispatcher nor
     * cached already.
     */
    predicate ReadyToRun()
      reads this, arena,
            if arg.Some? && arg.value.WaiterData? then {arg.value.data.node.suspendPoint.target}
            else if arg.Some? && arg.value.CoroutineToCleanup? then {arg.value.dispatcher}
            else {}
    {
      && IsPending(PendingSlot())
      && ArgMatches(action, arg.value)
      && match arg.value
         case WaiterData(data) => data.node.suspendPoint.target.threadData == null
         case CoroutineToCleanup(d) =>
           && arena.externalRefs > 0
           && d.threadData == null && d.suspendPoint != null && d !in arena.coCache
           && (slot != null ==> d != slot.defaultDispatcher)
         case _ => true
    }

    method AttachTaskDispatcher(d: Dispatcher)
      requires dispatcher == null && d.threadData == null
      modifies this, d
      ensures dispatcher == d && d.threadData == this
      ensures PendingSlot() == old(PendingSlot())
      ensures d.suspendPoint == old(d.suspendPoint) && d.criticalTaskAllowed == old(d.criticalTaskAllowed)
    {
      dispatcher := d;
      d.threadData := this;
    }

    method DetachTaskDispatcher()
      requires dispatcher != null && dispatcher.threadData == this
      modifies this, dispatcher
      ensures dispatcher == null && old(dispatcher).threadData == null
      ensures PendingSlot() == old(PendingSlot())
      ensures old(dispatcher).suspendPoint == old(dispatcher.suspendPoint)
      ensures old(dispatcher).criticalTaskAllowed == old(dispatcher.criticalTaskAllowed)
    {
      dispatcher.threadData := null;
      dispatcher := null;
    }

    /** set_post_resume_action: at most one action is pending at a time. */
    method SetPostResumeAction(action: Action, arg: PostResumeArg)
      requires IsClear(PendingSlot()) && action != NoAction
      modifies this
      ensures PendingSlot() == Record(old(PendingSlot()), action, arg)
      ensures dispatcher == old(dispatcher)
    {
      this.action, this.arg := action, Some(arg);
    }

    /**
     * do_post_resume_action: run the pending action, then leave the slot empty on
     * every branch.
     */
    method DoPostResumeAction() returns (result: ActionResult)
      requires ReadyToRun()
      modifies this, ActionFootprint()
      ensures PendingSlot() == Consume(old(PendingSlot())).0
      ensures dispatcher == old(dispatcher)
      ensures PostResumeEffect(this, old(arg.value), result)
      ensures old(arg.value).RecallFlag? ==> old(arg.value).owner.isOwnerRecalled
      ensures slot != null && old(CachedCoroutines(arena, slot.defaultDispatcher)) ==>
                CachedCoroutines(arena, slot.defaultDispatcher)
    {
      match arg.value {
        case WaiterData(data) =>
          var outcome := RegisterWaiterAction(data);
          result := Waited(outcome);
        case CallbackData(wrapper) =>
          result := CallbackInvoked(wrapper);
        case CoroutineToCleanup(d) =>
          arena.OnThreadLeaving();
          arena.CoCachePush(d);
          result := CleanedUp;
        case RecallFlag(owner) =>
          owner.isOwnerRecalled := true;
          result := Notified;
      }
      action, arg := NoAction, None;
    }
  }

  class Dispatcher {
    const arena: Arena
    var threadData: ThreadData?          // m_thread_data
    var suspendPoint: SuspendPoint?      // m_suspend_point
    var criticalTaskAllowed: bool        // m_properties.critical_task_allowed

    constructor (arena: Arena)
      ensures this.arena == arena && threadData == null && suspendPoint == null
      ensures criticalTaskAllowed
    {
      this.arena := arena;
      threadData := null;
      suspendPoint := null;
      criticalTaskAllowed := true;
    }

    method InitSuspendPoint(a: Arena, stackSize: nat)
      modifies this
      ensures suspendPoint != null && fresh(suspendPoint)
      ensures suspendPoint.arena == a && suspendPoint.target == this && suspendPoint.stackSize == stackSize
      ensures !suspendPoint.isOwnerRecalled
      ensures threadData == old(threadData) && criticalTaskAllowed == old(criticalTaskAllowed)
    {
      suspendPoint := new SuspendPoint(a, this, stackSize);
    }

    /** get_suspend_point: created on first use, on the thread's own stack, then reused. */
    method GetSuspendPoint() returns (sp: SuspendPoint)
      requires suspendPoint == null ==> threadData != null
      modifies this
      ensures sp == suspendPoint
      ensures old(suspendPoint) != null ==> sp == old(suspendPoint)
      ensures old(suspendPoint) == null ==>
                threadData != null && fresh(sp) && sp.arena == threadData.arena && sp.target == this && sp.stackSize == 0 && !sp.isOwnerRecalled
      ensures threadData == old(threadData) && criticalTaskAllowed == old(criticalTaskAllowed)
    {
      if suspendPoint == null {
        InitSuspendPoint(threadData.arena, 0);
      }
      sp := suspendPoint;
    }

    /**
     * task_dispatcher::resume: move the thread data from this dispatcher to the
     * target, transfer control, and continue in the target's resume tail.
     */
    method Resume(target: Dispatcher) returns (result: ActionResult)
      requires target != this
      requires threadData != null && threadData.dispatcher == this
      requires IsPending(threadData.PendingSlot()) && ArgMatches(threadData.action, threadData.arg.value)
      requires threadData.arg.value.WaiterData? ==> threadData.arg.value.data.node.suspendPoint.target == this
      requires threadData.slot != null
      requires threadData.arg.value.CoroutineToCleanup? ==>
                 && threadData.arena.externalRefs > 0
                 && threadData.arg.value.dispatcher == this
                 && this != threadData.slot.defaultDispatcher
                 && this !in threadData.arena.coCache
      requires suspendPoint != null && target.suspendPoint != null
      requires target.threadData == null
      modifies this, target, threadData, threadData.ActionFootprint(),
               if target == threadData.slot.defaultDispatcher then {target.suspendPoint} else {}
      ensures var td := old(threadData);
              && threadData == null && td.dispatcher == target && target.threadData == td
              && td.PendingSlot() == Consume(old(td.PendingSlot())).0
      ensures PostResumeEffect(old(threadData), old(threadData.arg.value), result)
      ensures suspendPoint == old(suspendPoint) && target.suspendPoint == old(target.suspendPoint)
      ensures criticalTaskAllowed == old(criticalTaskAllowed) && target.criticalTaskAllowed == old(target.criticalTaskAllowed)
      ensures target == old(threadData).slot.defaultDispatcher ==> !target.suspendPoint.isOwnerRecalled
      ensures var arg := old(threadData.arg.value);
              arg.RecallFlag? && (arg.owner != target.suspendPoint || target != old(threadData).slot.defaultDispatcher) ==>
                arg.owner.isOwnerRecalled
      ensures var td := old(threadData);
              old(CachedCoroutines(td.arena, td.slot.defaultDispatcher)) && target !in old(td.arena.coCache) ==>
                CachedCoroutines(td.arena, td.slot.defaultDispatcher)
    {
      var td := threadData;
      td.DetachTaskDispatcher();
      td.AttachTaskDispatcher(target);
      // m_co_context.resume(target's context): control continues in the target.
      result := target.Land();
    }

    /**
     * The tail of task_dispatcher::resume, run by the dispatcher control lands on:
     * consume the pending action, and clear the recall flag when this is the
     * slot's default dispatcher.
     */
    method Land() returns (result: ActionResult)
      requires threadData != null && threadData.dispatcher == this
      requires threadData.ReadyToRun()
      requires threadData.slot != null
      requires suspendPoint != null
      modifies threadData, threadData.ActionFootprint(),
               if this == threadData.slot.defaultDispatcher then {suspendPoint} else {}
      ensures threadData == old(threadData) && threadData.dispatcher == this
      ensures threadData.PendingSlot() == Consume(old(threadData.PendingSlot())).0
      ensures PostResumeEffect(threadData, old(threadData.arg.value), result)
      ensures this == threadData.slot.defaultDispatcher ==> !suspendPoint.isOwnerRecalled
      ensures var arg := old(threadData.arg.value);
              arg.RecallFlag? && (arg.owner != suspendPoint || this != threadData.slot.defaultDispatcher) ==>
                arg.owner.isOwnerRecalled
      ensures old(CachedCoroutines(threadData.arena, threadData.slot.defaultDispatcher)) ==>
                CachedCoroutines(threadData.arena, threadData.slot.defaultDispatcher)
    {
      var td := threadData;
      result := td.DoPostResumeAction();
      if this == td.slot.defaultDispatcher {
        suspendPoint.isOwnerRecalled := false;
      }
    }

    /**
     * Where a suspend switches to: the slot's default dispatcher when its owner is
     * recalled (asking for the default's suspend point creates it on first use),
     * otherwise a coroutine from create_coroutine. The target is detached, has a
     * suspend point, and is no longer in the arena's cache.
     */
    method SwitchTarget() returns (target: Dispatcher, isRecalled: bool)
      requires threadData != null && threadData.dispatcher == this && threadData.slot != null
      requires var def := threadData.slot.defaultDispatcher;
               && (def.suspendPoint == null ==> def == this)
               && (def.suspendPoint != null && def.suspendPoint.isOwnerRecalled ==> def != this && def.threadData == null)
      requires CachedCoroutines(threadData.arena, threadData.slot.defaultDispatcher)
      modifies threadData.arena, threadData.slot.defaultDispatcher
      ensures threadData == old(threadData) && criticalTaskAllowed == old(criticalTaskAllowed)
      ensures var def := threadData.slot.defaultDispatcher;
              && isRecalled == old(def.suspendPoint != null && def.suspendPoint.isOwnerRecalled)
              && def.threadData == old(def.threadData) && def.criticalTaskAllowed == old(def.criticalTaskAllowed)
              && def.suspendPoint != null
              && (old(def.suspendPoint) != null ==> def.suspendPoint == old(def.suspendPoint))
              && (old(def.suspendPoint) == null ==>
                    && fresh(def.suspendPoint) && def.suspendPoint.target == def
                    && def.suspendPoint.arena == threadData.arena && def.suspendPoint.stackSize == 0)
      ensures this != threadData.slot.defaultDispatcher ==> suspendPoint == old(suspendPoint)
      ensures target != this && target.threadData == null && target.suspendPoint != null
      ensures isRecalled ==> target == threadData.slot.defaultDispatcher && threadData.arena.State() == old(threadData.arena.State())
      ensures !isRecalled ==>
                && (threadData.arena.State(), target) == ArenaState.CreateCoroutine(old(threadData.arena.State()), target)
                && (old(threadData.arena.coCache) == [] ==> fresh(target))
                && (old(threadData.arena.coCache) != [] ==> target == old(threadData.arena.coCache[|threadData.arena.coCache| - 1]))
      ensures !isRecalled ==> !threadData.slot.defaultDispatcher.suspendPoint.isOwnerRecalled
      ensures fresh(target) ==>
                && target.criticalTaskAllowed
                && fresh(target.suspendPoint) && target.suspendPoint.target == target
                && target.suspendPoint.arena == threadData.arena
                && target.suspendPoint.stackSize == threadData.arena.market.workerStackSize
      ensures !fresh(target) ==>
                target.criticalTaskAllowed == old(target.criticalTaskAllowed) && target.suspendPoint == old(target.suspendPoint)
      ensures CachedCoroutines(threadData.arena, threadData.slot.defaultDispatcher) && target !in threadData.arena.coCache
    {
      var td := threadData;
      var def := td.slot.defaultDispatcher;
      var defSp := def.GetSuspendPoint();
      isRecalled := defSp.isOwnerRecalled;
      if isRecalled {
        target := def;
      } else {
        target := CreateCoroutine(td);
      }
    }

    /**
     * The switch of a suspend: record the callback action with this dispatcher's
     * suspend point (created on the thread's own stack on first use), then resume
     * the target, where the callback runs.
     */
    method ResumeWithCallback(target: Dispatcher, suspendCallback: Pointer, userCallback: Pointer) returns (result: ActionResult)
      requires threadData != null && threadData.dispatcher == this && threadData.slot != null
      requires IsClear(threadData.PendingSlot())
      requires target != this && target.threadData == null && target.suspendPoint != null
      modifies this, threadData, target,
               if target == threadData.slot.defaultDispatcher then {target.suspendPoint} else {}
      ensures var td := old(threadData);
              && threadData == null && td.dispatcher == target && target.threadData == td
              && IsClear(td.PendingSlot())
      ensures suspendPoint != null && (old(suspendPoint) != null ==> suspendPoint == old(suspendPoint))
      ensures result == CallbackInvoked(CallbackWrapper(suspendCallback, userCallback, suspendPoint))
      ensures old(suspendPoint) == null ==>
                && fresh(suspendPoint) && suspendPoint.target == this && suspendPoint.arena == old(threadData).arena
                && suspendPoint.stackSize == 0
      ensures criticalTaskAllowed == old(criticalTaskAllowed)
      ensures target.criticalTaskAllowed == old(target.criticalTaskAllowed) && target.suspendPoint == old(target.suspendPoint)
      ensures target == old(threadData).slot.defaultDispatcher ==> !target.suspendPoint.isOwnerRecalled
      ensures var td := old(threadData);
              old(CachedCoroutines(td.arena, td.slot.defaultDispatcher)) && target !in old(td.arena.coCache) ==>
                CachedCoroutines(td.arena, td.slot.defaultDispatcher)
    {
      var td := threadData;
      var sp := GetSuspendPoint();
      td.SetPostResumeAction(Callback, CallbackData(CallbackWrapper(suspendCallback, userCallback, sp)));
      result := Resume(target);
    }

    /**
     * task_dispatcher::suspend: go to the slot's default dispatcher when its owner
     * is recalled, otherwise to a cached or new coroutine; arrange for the callback
     * to run there, and switch. What follows the switch here (recall_point for the
     * outermost dispatcher) runs only when this dispatcher is resumed again.
     */
    method Suspend(suspendCallback: Pointer, userCallback: Pointer) returns (result: ActionResult)
      requires suspendCallback != Null && userCallback != Null
      requires threadData != null && threadData.dispatcher == this
      requires threadData.slot != null
      requires IsClear(threadData.PendingSlot())
      requires var def := threadData.slot.defaultDispatcher;
               && (def.suspendPoint == null ==> def == this)
               && (def.suspendPoint != null && def.suspendPoint.isOwnerRecalled ==> def != this && def.threadData == null)
      requires CachedCoroutines(threadData.arena, threadData.slot.defaultDispatcher)
      modifies this, threadData, threadData.arena, threadData.slot.defaultDispatcher,
               threadData.slot.defaultDispatcher.suspendPoint,
               if threadData.arena.coCache != [] then {threadData.arena.coCache[|threadData.arena.coCache| - 1]} else {}
      ensures var td := old(threadData);
              && threadData == null && suspendPoint != null
              && (old(suspendPoint) != null ==> suspendPoint == old(suspendPoint))
              && td.dispatcher != null && td.dispatcher != this && td.dispatcher.threadData == td
              && IsClear(td.PendingSlot())
              && result == CallbackInvoked(CallbackWrapper(suspendCallback, userCallback, suspendPoint))
      ensures old(suspendPoint) == null ==>
                && fresh(suspendPoint) && suspendPoint.target == this && suspendPoint.arena == old(threadData).arena
                && suspendPoint.stackSize == 0
      ensures criticalTaskAllowed == old(criticalTaskAllowed)
      ensures var t := old(threadData).dispatcher;
              && t.suspendPoint != null
              && (fresh(t) ==>
                    && t.criticalTaskAllowed
                    && fresh(t.suspendPoint) && t.suspendPoint.target == t && t.suspendPoint.arena == old(threadData).arena
                    && t.suspendPoint.stackSize == old(threadData).arena.market.workerStackSize)
              && (!fresh(t) ==> t.criticalTaskAllowed == old(t.criticalTaskAllowed) && t.suspendPoint == old(t.suspendPoint))
      ensures var def := old(threadData).slot.defaultDispatcher;
              && def.suspendPoint != null && !def.suspendPoint.isOwnerRecalled
              && (def != this && def != old(threadData).dispatcher ==>
                    && def.threadData == old(def.threadData) && def.suspendPoint == old(def.suspendPoint)
                    && def.criticalTaskAllowed == old(def.criticalTaskAllowed))
      ensures var td := old(threadData);
              var def := td.slot.defaultDispatcher;
              old(def.suspendPoint != null && def.suspendPoint.isOwnerRecalled) && old(td.arena.coCache) != [] ==>
                unchanged(old(td.arena.coCache[|td.arena.coCache| - 1]))
      ensures CachedCoroutines(old(threadData).arena, old(threadData).slot.defaultDispatcher)
      ensures var td := old(threadData);
              var def := td.slot.defaultDispatcher;
              old(def.suspendPoint != null && def.suspendPoint.isOwnerRecalled) ==>
                && td.dispatcher == def
                && td.arena.State() == old(td.arena.State())
                && def.suspendPoint != null && !def.suspendPoint.isOwnerRecalled
      ensures var td := old(threadData);
              var def := td.slot.defaultDispatcher;
              !old(def.suspendPoint != null && def.suspendPoint.isOwnerRecalled) ==>
                && (td.arena.State(), td.dispatcher) == ArenaState.CreateCoroutine(old(td.arena.State()), td.dispatcher)
                && (old(td.arena.coCache) == [] ==> fresh(td.dispatcher))
    {
      var target, _ := SwitchTarget();
      result := ResumeWithCallback(target, suspendCallback, userCallback);
    }
  }

  /** The global suspend: the dispatcher the calling thread runs suspends itself. */
  method Suspend(td: ThreadData, suspendCallback: Pointer, userCallback: Pointer) returns (result: ActionResult)
    requires suspendCallback != Null && userCallback != Null
    requires td.dispatcher != null && td.dispatcher.threadData == td
    requires td.slot != null
    requires IsClear(td.PendingSlot())
    requires var def := td.slot.defaultDispatcher;
             && (def.suspendPoint == null ==> def == td.dispatcher)
             && (def.suspendPoint != null && def.suspendPoint.isOwnerRecalled ==> def != td.dispatcher && def.threadData == null)
    requires CachedCoroutines(td.arena, td.slot.defaultDispatcher)
    modifies td.dispatcher, td, td.arena, td.slot.defaultDispatcher,
             td.slot.defaultDispatcher.suspendPoint,
             if td.arena.coCache != [] then {td.arena.coCache[|td.arena.coCache| - 1]} else {}
    ensures td.dispatcher != null && td.dispatcher != old(td.dispatcher) && td.dispatcher.threadData == td
    ensures old(td.dispatcher).threadData == null && old(td.dispatcher).suspendPoint != null
    ensures IsClear(td.PendingSlot())
    ensures result == CallbackInvoked(CallbackWrapper(suspendCallback, userCallback, old(td.dispatcher).suspendPoint))
    ensures var suspended := old(td.dispatcher);
            && (old(suspended.suspendPoint) != null ==> suspended.suspendPoint == old(suspended.suspendPoint))
            && (old(suspended.suspendPoint) == null ==>
                  && fresh(suspended.suspendPoint) && suspended.suspendPoint.target == suspended
                  && suspended.suspendPoint.arena == td.arena && suspended.suspendPoint.stackSize == 0)
            && suspended.criticalTaskAllowed == old(suspended.criticalTaskAllowed)
    ensures var def := td.slot.defaultDispatcher;
            old(def.suspendPoint != null && def.suspendPoint.isOwnerRecalled) ==>
              && td.dispatcher == def
              && td.arena.State() == old(td.arena.State())
              && def.suspendPoint != null && !def.suspendPoint.isOwnerRecalled
    ensures var def := td.slot.defaultDispatcher;
            !old(def.suspendPoint != null && def.suspendPoint.isOwnerRecalled) ==>
              && (td.arena.State(), td.dispatcher) == ArenaState.CreateCoroutine(old(td.arena.State()), td.dispatcher)
              && (old(td.arena.coCache) == [] ==> fresh(td.dispatcher))
    ensures var t := td.dispatcher;
            && t.suspendPoint != null
            && (fresh(t) ==>
                  && t.criticalTaskAllowed
                  && fresh(t.suspendPoint) && t.suspendPoint.target == t && t.suspendPoint.arena == td.arena
                  && t.suspendPoint.stackSize == td.arena.market.workerStackSize)
            && (!fresh(t) ==> t.criticalTaskAllowed == old(t.criticalTaskAllowed) && t.suspendPoint == old(t.suspendPoint))
    ensures var def := td.slot.defaultDispatcher;
            && def.suspendPoint != null && !def.suspendPoint.isOwnerRecalled
            && (def != old(td.dispatcher) && def != td.dispatcher ==>
                  && def.threadData == old(def.threadData) && def.suspendPoint == old(def.suspendPoint)
                  && def.criticalTaskAllowed == old(def.criticalTaskAllowed))
    ensures var def := td.slot.defaultDispatcher;
            old(def.suspendPoint != null && def.suspendPoint.isOwnerRecalled) && old(td.arena.coCache) != [] ==>
              unchanged(old(td.arena.coCache[|td.arena.coCache| - 1]))
    ensures CachedCoroutines(td.arena, td.slot.defaultDispatcher)
    ensures td.arena.coCache <= old(td.arena.coCache)
  {
    result := td.dispatcher.Suspend(suspendCallback, userCallback);
  }

  /**
   * The global resume(sp): the target must be detached; the arena is held by one
   * more external reference while the resume task is pushed and new work is
   * advertised, and released afterwards.
   */
  method Resume(sp: SuspendPoint)
    requires sp.target.threadData == null
    modifies sp.arena
    ensures sp.arena.State() == ArenaState.ResumeSuspendPoint(old(sp.arena.State()), sp, sp.target.criticalTaskAllowed)
  {
    var a := sp.arena;
    a.AddExternalRef();
    if sp.target.criticalTaskAllowed {
      a.PushResumeTask(sp);
    }
    a.AdvertiseNewWork();
    a.OnThreadLeaving();
  }

  /** current_suspend_point: the suspend point of the dispatcher the thread runs. */
  method CurrentSuspendPoint(td: ThreadData) returns (sp: SuspendPoint)
    requires td.dispatcher != null && td.dispatcher.threadData == td
    modifies td.dispatcher
    ensures td.dispatcher.threadData == td && sp == td.dispatcher.suspendPoint
    ensures old(td.dispatcher.suspendPoint) != null ==> sp == old(td.dispatcher.suspendPoint)
    ensures old(td.dispatcher.suspendPoint) == null ==>
              && fresh(sp) && sp.target == td.dispatcher && sp.arena == td.arena && sp.stackSize == 0
              && !sp.isOwnerRecalled
    ensures td.dispatcher.criticalTaskAllowed == old(td.dispatcher.criticalTaskAllowed)
  {
    sp := td.dispatcher.GetSuspendPoint();
  }

  /**
   * create_coroutine: a dispatcher from the arena's cache, or a newly allocated one
   * with its own suspend point on a worker-sized stack when the cache is empty;
   * either way the arena gains one external reference.
   */
  method CreateCoroutine(td: ThreadData) returns (d: Dispatcher)
    modifies td.arena
    ensures (td.arena.State(), d) == ArenaState.CreateCoroutine(old(td.arena.State()), d)
    ensures old(td.arena.coCache) == [] ==>
              && fresh(d) && d.arena == td.arena && d.threadData == null && d.criticalTaskAllowed
              && d.suspendPoint != null && fresh(d.suspendPoint) && d.suspendPoint.target == d
              && d.suspendPoint.arena == td.arena && d.suspendPoint.stackSize == td.arena.market.workerStackSize
  {
    var a := td.arena;
    var cached := a.CoCachePop();
    if cached == null {
      d := new Dispatcher(a);
      d.InitSuspendPoint(a, a.market.workerStackSize);
    } else {
      d := cached;
    }
    a.AddExternalRef();
  }

  /** notify_waiters: wake every waiter of the thread's market whose context carries the tag. */
  method NotifyWaiters(td: ThreadData, tag: nat) returns (woken: seq<WaitNode>)
    modifies td.arena.market.waitList
    ensures (woken, td.arena.market.waitList.waiters) == NotifySplit(old(td.arena.market.waitList.waiters), ContextOf, tag)
  {
    woken := td.arena.market.waitList.Notify(tag);
  }

  /**
   * A suspend followed, from any thread, by the resume of the point it suspended:
   * the suspended dispatcher is detached and keeps its critical-task property, so
   * the resume pushes exactly that point's resume task (none when critical tasks
   * are not allowed), and the arena's cache keeps its invariant throughout.
   */
  method SuspendThenResume(td: ThreadData, suspendCallback: Pointer, userCallback: Pointer) returns (sp: SuspendPoint)
    requires suspendCallback != Null && userCallback != Null
    requires td.dispatcher != null && td.dispatcher.threadData == td
    requires td.slot != null
    requires IsClear(td.PendingSlot())
    requires var def := td.slot.defaultDispatcher;
             && (def.suspendPoint == null ==> def == td.dispatcher)
             && (def.suspendPoint != null && def.suspendPoint.isOwnerRecalled ==> def != td.dispatcher && def.threadData == null)
    requires td.dispatcher.suspendPoint != null ==>
               td.dispatcher.suspendPoint.target == td.dispatcher && td.dispatcher.suspendPoint.arena == td.arena
    requires CachedCoroutines(td.arena, td.slot.defaultDispatcher)
    modifies td.dispatcher, td, td.arena, td.slot.defaultDispatcher,
             td.slot.defaultDispatcher.suspendPoint,
             if td.arena.coCache != [] then {td.arena.coCache[|td.arena.coCache| - 1]} else {}
    ensures sp == old(td.dispatcher).suspendPoint && sp.target == old(td.dispatcher) && sp.target.threadData == null
    ensures td.arena.resumeStream == old(td.arena.resumeStream) + (if old(td.dispatcher.criticalTaskAllowed) then [sp] else [])
    ensures var def := td.slot.defaultDispatcher;
            td.arena.externalRefs ==
              old(td.arena.externalRefs) + (if old(def.suspendPoint != null && def.suspendPoint.isOwnerRecalled) then 0 else 1)
    ensures CachedCoroutines(td.arena, td.slot.defaultDispatcher)
  {
    var suspended := td.dispatcher;
    var _ := Suspend(td, suspendCallback, userCallback);
    sp := suspended.suspendPoint;
    Resume(sp);
  }

}
