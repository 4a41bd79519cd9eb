/**
 * The arena fields that the resumable-task code reads and writes, as a value:
 * the external reference count, the coroutine cache, the resume-task stream and
 * how often new work has been advertised. D stands for a task dispatcher and S
 * for a suspend point. The operations of the resumable-task protocol are
 * functions on this value, and a replay of any sequence of them keeps the
 * reference count equal to the references held by live coroutines plus all
 * others.
 */
module ArenaState {

  import opened Options

  /**
   * externalRefs is the ref_external part of my_references; coCache is
   * my_co_cache with its next pop last; resumeStream is my_resume_task_stream
   * with its lanes merged; advertised counts advertise_new_work calls.
   */
  datatype ArenaView<D, S> = ArenaView(externalRefs: nat, coCache: seq<D>, resumeStream: seq<S>, advertised: nat)

  function AddExternalRef<D, S>(a: ArenaView<D, S>): ArenaView<D, S>
  {
    a.(externalRefs := a.externalRefs + 1)
  }

  /** on_thread_leaving<ref_external>: give back one external reference (teardown at zero is not modelled). */
  function ReleaseExternalRef<D, S>(a: ArenaView<D, S>): ArenaView<D, S>
    requires a.externalRefs > 0
  {
    a.(externalRefs := a.externalRefs - 1)
  }

  /** my_co_cache.push: the dispatcher becomes the next one popped. */
  function CachePush<D, S>(a: ArenaView<D, S>, d: D): ArenaView<D, S>
  {
    a.(coCache := a.coCache + [d])
  }

  /** my_co_cache.pop: the most recently pushed dispatcher, or None (nullptr) when the cache is empty. */
  function CachePop<D, S>(a: ArenaView<D, S>): (r: (ArenaView<D, S>, Option<D>))
    ensures r.1 == None <==> a.coCache == []
    ensures r.1 == None ==> r.0 == a
    ensures r.1.Some? ==> r.0.coCache + [r.1.value] == a.coCache && r.0 == a.(coCache := r.0.coCache)
  {
    if a.coCache == [] then (a, None)
    else (a.(coCache := a.coCache[..|a.coCache| - 1]), Some(a.coCache[|a.coCache| - 1]))
  }

  function PushResumeTask<D, S>(a: ArenaView<D, S>, sp: S): ArenaView<D, S>
  {
    a.(resumeStream := a.resumeStream + [sp])
  }

  function AdvertiseNewWork<D, S>(a: ArenaView<D, S>): ArenaView<D, S>
  {
    a.(advertised := a.advertised + 1)
  }

  /**
   * create_coroutine: reuse the cached dispatcher that was pushed last, and
   * allocate (here: take `newDispatcher`) only when the cache is empty; either way the
   * coroutine takes one external reference. The stream and the wake-ups are untouched.
   */
  function CreateCoroutine<D, S>(a: ArenaView<D, S>, newDispatcher: D): (r: (ArenaView<D, S>, D))
    ensures r.0.externalRefs == a.externalRefs + 1
    ensures a.coCache != [] ==> r.0.coCache + [r.1] == a.coCache
    ensures a.coCache == [] ==> r.1 == newDispatcher && r.0.coCache == []
    ensures r.0.resumeStream == a.resumeStream && r.0.advertised == a.advertised
  {
    var (popped, cached) := CachePop(a);
    (AddExternalRef(popped), if cached.Some? then cached.value else newDispatcher)
  }

  /**
   * The cleanup post-resume action: release the coroutine's external reference,
   * then cache the coroutine. Exactly one reference goes and exactly the given
   * dispatcher is added to the cache; nothing else changes.
   */
  function CleanupCoroutine<D, S>(a: ArenaView<D, S>, d: D): (r: ArenaView<D, S>)
    requires a.externalRefs > 0
    ensures r.externalRefs + 1 == a.externalRefs
    ensures r.coCache == a.coCache + [d]
    ensures r.resumeStream == a.resumeStream && r.advertised == a.advertised
  {
    CachePush(ReleaseExternalRef(a), d)
  }

  /**
   * The global resume(sp): hold an external reference while scheduling, push the
   * suspend point's resume task when the target allows critical tasks (so the
   * resume task itself is not critical), advertise new work, and give the reference back. Net effect on the
   * reference count is zero and on the stream exactly one task (or none).
   */
  function ResumeSuspendPoint<D, S>(a: ArenaView<D, S>, sp: S, criticalTaskAllowed: bool): (r: ArenaView<D, S>)
    ensures r.externalRefs == a.externalRefs
    ensures r.coCache == a.coCache
    ensures r.resumeStream == if criticalTaskAllowed then a.resumeStream + [sp] else a.resumeStream
    ensures r.advertised == a.advertised + 1
  {
    var held := AddExternalRef(a);
    var pushed := if criticalTaskAllowed then PushResumeTask(held, sp) else held;
    ReleaseExternalRef(AdvertiseNewWork(pushed))
  }

  /** Caching a coroutine and creating one next gives that same coroutine back, and restores the arena. */
  lemma CleanupThenCreateReuses<D, S>(a: ArenaView<D, S>, d: D, newDispatcher: D)
    requires a.externalRefs > 0
    ensures CreateCoroutine(CleanupCoroutine(a, d), newDispatcher) == (a, d)
  {
  }

  /** One step of the protocol as the arena sees it. */
  datatype Event<D, S> =
    | Create(newDispatcher: D)                  // create_coroutine; newDispatcher is used only if the cache is empty
    | Cleanup(d: D)                             // the cleanup post-resume action for coroutine d
    | Resume(sp: S, criticalTaskAllowed: bool)  // the global resume(sp)

  /** An arena together with the coroutines currently alive outside its cache. */
  datatype Config<D, S> = Config(arena: ArenaView<D, S>, live: set<D>)

  ghost predicate NoDuplicates<T>(s: seq<T>)
  {
    forall i, j :: 0 <= i < j < |s| ==> s[i] != s[j]
  }

  /**
   * Every live coroutine holds exactly one external reference, `others` are held
   * by everyone else, and a cached coroutine is neither live nor cached twice.
   */
  ghost predicate Accounted<D, S>(c: Config<D, S>, others: nat)
  {
    && c.arena.externalRefs == others + |c.live|
    && NoDuplicates(c.arena.coCache)
    && (forall i :: 0 <= i < |c.arena.coCache| ==> c.arena.coCache[i] !in c.live)
  }

  /**
   * When an event may happen: a newly allocated dispatcher is a new object, and
   * only a live coroutine (which holds a reference) is cleaned up.
   */
  ghost predicate Enabled<D, S>(c: Config<D, S>, e: Event<D, S>)
  {
    match e
    case Create(newDispatcher) => c.arena.coCache == [] ==> newDispatcher !in c.live
    case Cleanup(d) => d in c.live && c.arena.externalRefs > 0
    case Resume(_, _) => true
  }

  ghost function Step<D, S>(c: Config<D, S>, e: Event<D, S>): Config<D, S>
    requires Enabled(c, e)
  {
    match e
    case Create(newDispatcher) =>
      var (a, d) := CreateCoroutine(c.arena, newDispatcher);
      Config(a, c.live + {d})
    case Cleanup(d) => Config(CleanupCoroutine(c.arena, d), c.live - {d})
    case Resume(sp, critical) => Config(ResumeSuspendPoint(c.arena, sp, critical), c.live)
  }

  /** Runs the events in order; None as soon as one of them is not enabled. */
  ghost function Run<D, S>(c: Config<D, S>, events: seq<Event<D, S>>): Option<Config<D, S>>
    decreases |events|
  {
    if events == [] then Some(c)
    else if Enabled(c, events[0]) then Run(Step(c, events[0]), events[1..])
    else None
  }

  /** The suspend points whose resume tasks the events push, in order. */
  function ResumeTasks<D, S>(events: seq<Event<D, S>>): seq<S>
  {
    if events == [] then []
    else if events[0].Resume? && events[0].criticalTaskAllowed then [events[0].sp] + ResumeTasks(events[1..])
    else ResumeTasks(events[1..])
  }

  lemma StepKeepsAccounting<D, S>(c: Config<D, S>, e: Event<D, S>, others: nat)
    requires Accounted(c, others) && Enabled(c, e)
    ensures Accounted(Step(c, e), others)
  {
  }

  /**
   * Over any run: the accounting holds throughout (so an arena with a live
   * coroutine always has an external reference and cannot be torn down), and
   * the resume stream grows by exactly one task per resume that allows it.
   */
  lemma {:induction false} RunKeepsAccounting<D, S>(c: Config<D, S>, events: seq<Event<D, S>>, others: nat)
    requires Accounted(c, others)
    requires Run(c, events).Some?
    ensures Accounted(Run(c, events).value, others)
    ensures Run(c, events).value.live != {} ==> Run(c, events).value.arena.externalRefs > 0
    ensures Run(c, events).value.arena.resumeStream == c.arena.resumeStream + ResumeTasks(events)
    decreases |events|
  {
    if events == [] {
      assert c.arena.resumeStream + [] == c.arena.resumeStream;
    } else {
      var c' := Step(c, events[0]);
      StepKeepsAccounting(c, events[0], others);
      RunKeepsAccounting(c', events[1..], others);
      var final := Run(c, events).value;
      if final.live != {} {
        var d :| d in final.live;
        assert |final.live| >= 1;
      }
      match events[0]
      case Resume(sp, critical) =>
        if critical {
          assert c'.arena.resumeStream == c.arena.resumeStream + [sp];
        }
      case _ =>
    }
  }

}
