# Resumable tasks of the oneTBB scheduler, modelled in Dafny

This project models the resumable-task bookkeeping of the oneTBB task scheduler
(`src/tbb/task.cpp`). A task running on a task dispatcher can suspend. The thread
then switches to another dispatcher: the slot's default dispatcher when its owner
has been recalled, otherwise a coroutine taken from the arena's cache or newly
allocated. Any thread may later resume the suspended point. Resuming wakes a
worker, and pushes a resume task onto the arena's stream when the target
dispatcher allows critical tasks. Every switch leaves one
deferred action in the thread data's post-resume slot. The dispatcher that
control lands on runs it. The action is one of register-waiter, callback,
cleanup or notify.

The model has two layers.

- Value-level specifications, in three modules:
  - `ArenaState`: the arena's external reference count, coroutine cache, resume
    stream and wake-ups, with `create_coroutine`, the cleanup action and the
    global `resume` as functions. A replay lemma proves that the reference count
    always equals the references held by live coroutines plus all others.
  - `PostResume`: the single post-resume slot, with a replay lemma proving that
    each recorded action runs exactly once, and the three outcomes of
    register-waiter.
  - `Waiters`: the tag predicate of `notify_waiters` and what a notification or a
    `cancel_wait` does to the list of waiters.
- Heap objects (`Resumable`): classes for the thread data, task dispatchers,
  suspend points, the arena, the arena slot, the market, wait nodes, wait
  contexts and the wait list. Each method's `modifies` names the objects the
  source changes. Its `ensures` ties the new state to the value-level functions,
  `Arena.State()` for the arena and `ThreadData.PendingSlot()` for the slot, and
  says which fields of the dispatchers involved stay as they were. The predicate
  `CachedCoroutines` describes the coroutine cache: it holds only detached
  dispatchers with suspend points, never a slot's default dispatcher, and never
  the same one twice. Suspend relies on it. Every suspend, every switch to a
  dispatcher outside the cache, and every post-resume action keeps it.

The stack switch at `task.cpp:134` is an abstract transfer of control. A target
dispatcher that is not running was itself left inside its own `resume` call. So
after the switch the thread continues with the target's resume tail (lines
136-149): `Dispatcher.Resume` ends by calling `target.Land()`. The CAS of the
register-waiter action works on the node's ready flag. It fails exactly when a
notifier has already set the flag to ready, so the race's nondeterminism lives in
the flag's value on entry.

The cleanup action (`task.cpp:190`) releases one external reference on every
cleanup, before pushing to the cache, and so does `ArenaState.CleanupCoroutine`.

## Model

| member | source | states |
|---|---|---|
| `ArenaState.CachePop` | src/tbb/task.cpp:82-83 | the cache yields None (nullptr) exactly when it is empty; otherwise the most recently pushed dispatcher, removed from the cache, with every other arena field unchanged |
| `ArenaState.CreateCoroutine` | src/tbb/task.cpp:80-93 | a non-empty cache supplies its last dispatcher; a new dispatcher is used only when the cache is empty; in both cases the external count rises by exactly one, and the stream and wake-ups are untouched |
| `ArenaState.CleanupCoroutine` | src/tbb/task.cpp:186-193 | the cleanup action releases exactly one external reference and appends exactly the given dispatcher to the cache; stream and wake-ups unchanged |
| `ArenaState.ResumeSuspendPoint` | src/tbb/task.cpp:47-73 | the global resume leaves the external count unchanged net (+1 then -1), leaves the cache alone, pushes exactly the suspend point's resume task when critical tasks are allowed (and none otherwise), and advertises work once |
| `ArenaState.CleanupThenCreateReuses` | src/tbb/task.cpp:80-93 | caching a coroutine and then creating one returns that same coroutine, not a new one, and restores the arena exactly |
| `ArenaState.StepKeepsAccounting` | src/tbb/task.cpp:88-91 | each create, cleanup or resume keeps the external count equal to the other references plus one per live coroutine, and keeps cached coroutines distinct and not live |
| `ArenaState.RunKeepsAccounting` | src/tbb/task.cpp:53-56 | over any run of creates, cleanups and resumes the accounting holds, so an arena with a live coroutine always has an external reference; the stream grows by exactly one resume task per resume that allows it, in order |
| `PostResume.Record` | src/tbb/task.cpp:109 | an action is recorded only into an empty slot and only if it is a real action; afterwards exactly that action and argument are pending |
| `PostResume.Consume` | src/tbb/task.cpp:152-208 | consuming requires a pending action with a non-null argument, hands out exactly that action and argument, and leaves the slot empty (none/nullptr) |
| `PostResume.EachActionRunsOnce` | src/tbb/task.cpp:117-150 | in any valid sequence of records and switches, every recorded action runs exactly once, in recording order, one per switch; the only one not yet run is the one still pending |
| `PostResume.RegisterWaiterOutcome` | src/tbb/task.cpp:157-179 | the three outcomes, each as an if-and-only-if: context finished iff the context does not continue; lost race iff it continues and the flag is already ready; committed iff it continues and the flag is not ready; a commit sets the flag to ready and the other outcomes leave it as it was |
| `Waiters.NotifySplit` | src/tbb/task.cpp:227-232 | notifying with a tag wakes only waiters whose context equals the tag and keeps only waiters whose context differs |
| `Waiters.NotifySplitKeepsEveryWaiter` | src/tbb/task.cpp:232 | the woken and the remaining waiters together are exactly the registered ones, as a multiset |
| `Waiters.NotifyWakesExactlyTheRelated` | src/tbb/task.cpp:228-230 | every registered waiter with the tag is woken (no missed wake-up), and every other waiter stays registered |
| `Waiters.Without` | src/tbb/task.cpp:174 | cancel_wait removes the node and keeps every other waiter with its multiplicity |
| `Resumable.Arena.CoCachePop` | src/tbb/task.cpp:82 | the arena's cache after pop, and the returned pointer, are those of `ArenaState.CachePop` |
| `Resumable.Arena.CoCachePush` | src/tbb/task.cpp:192 | push appends the dispatcher to the cache |
| `Resumable.Arena.AddExternalRef` | src/tbb/task.cpp:56 | `my_references += ref_external` adds one external reference |
| `Resumable.Arena.OnThreadLeaving` | src/tbb/task.cpp:72 | releasing an external reference requires one to be held and removes exactly one |
| `Resumable.Arena.PushResumeTask` | src/tbb/task.cpp:60 | the resume task of the suspend point is appended to the stream |
| `Resumable.Arena.AdvertiseNewWork` | src/tbb/task.cpp:69 | one more advertisement of new work |
| `Resumable.WaitNode.CompareExchangeReady` | src/tbb/task.cpp:161-171 | the CAS from not-ready to ready succeeds iff the flag was not ready; either way the flag is ready afterwards |
| `Resumable.WaitList.CancelWait` | src/tbb/task.cpp:174 | the wait list afterwards is `Waiters.Without` of the old list and the node |
| `Resumable.WaitList.Notify` | src/tbb/task.cpp:232 | the woken nodes and the remaining list are `Waiters.NotifySplit` of the old list |
| `Resumable.ThreadData.AttachTaskDispatcher` | src/tbb/task.cpp:129 | attaching links the thread data and a detached dispatcher both ways and leaves the post-resume slot alone |
| `Resumable.ThreadData.DetachTaskDispatcher` | src/tbb/task.cpp:128 | detaching unlinks the thread data from its dispatcher both ways and leaves the post-resume slot alone |
| `Resumable.ThreadData.SetPostResumeAction` | src/tbb/task.cpp:109 | the slot afterwards is `PostResume.Record` of the empty slot, the action and the argument |
| `Resumable.RegisterWaiterAction` | src/tbb/task.cpp:157-179 | the outcome and the node's flag are `RegisterWaiterOutcome` of whether the context continues and the flag on entry; unless committed, the node leaves the wait list (`Without`) and the arena becomes `ResumeSuspendPoint` for the node's suspend point; when committed, wait list and arena are unchanged |
| `Resumable.ThreadData.DoPostResumeAction` | src/tbb/task.cpp:152-208 | requires a pending action, a non-null argument of the matching type, the waiter's dispatcher detached, and for cleanup a held reference and a detached, non-default, not yet cached coroutine with a suspend point; on every branch leaves the slot as none/nullptr; register-waiter has the effect of `RegisterWaiterAction`; callback invokes the wrapper; cleanup is `CleanupCoroutine` on the thread's arena; notify sets the owner's recall flag; the arena's cache keeps `CachedCoroutines` |
| `Resumable.Dispatcher.constructor` | src/tbb/task.cpp:84-85 | a new dispatcher belongs to the arena, is detached, has no suspend point yet, and allows critical tasks |
| `Resumable.Dispatcher.InitSuspendPoint` | src/tbb/task.cpp:86 | a fresh suspend point for this dispatcher, on the given arena and stack size, not recalled |
| `Resumable.Dispatcher.GetSuspendPoint` | src/tbb/task.cpp:77 | an existing suspend point is returned unchanged; otherwise one is created on the thread's own stack |
| `Resumable.Dispatcher.Resume` | src/tbb/task.cpp:117-150 | requires: target different from this; the thread data attached to this; a pending action with an argument; suspend points on both sides; a detached target; a register-waiter action to carry a node whose suspend point targets this dispatcher; a cleanup action to carry this dispatcher (not the default, not cached). Afterwards this is detached, the thread data is attached to the target, the pending action has run once and the slot is empty; both dispatchers keep their suspend points and critical-task property; landing on the slot's default dispatcher clears its recall flag, and a notify for any other point leaves that point's flag set; a target not in the cache keeps `CachedCoroutines` |
| `Resumable.Dispatcher.Land` | src/tbb/task.cpp:136-149 | the dispatcher control lands on runs the pending action through `DoPostResumeAction` and, if it is the slot's default dispatcher, clears its own recall flag; a notify for any other suspend point leaves that point's flag set; the cache keeps `CachedCoroutines` |
| `Resumable.Dispatcher.SwitchTarget` | src/tbb/task.cpp:100-106 | the target is the slot's default dispatcher exactly when its owner is recalled (the arena is then untouched), otherwise the result of `ArenaState.CreateCoroutine` (a new dispatcher only when the cache is empty, else the last cached one); the target is never this dispatcher, is detached, has a suspend point and has left the cache, which keeps `CachedCoroutines`; a reused target keeps its suspend point and critical-task property, a new one allows critical tasks and has a new suspend point on a worker-sized stack; the default dispatcher keeps its thread data and existing suspend point, and without a recall its flag stays clear |
| `Resumable.Dispatcher.ResumeWithCallback` | src/tbb/task.cpp:108-110 | records the callback action with this dispatcher's suspend point (the existing one, or a new one targeting this dispatcher on the thread's arena and own stack) and resumes the target: the thread data moves to the target, the callback has run and the slot is empty; both dispatchers keep their critical-task property, the target its suspend point; landing on the default dispatcher clears its flag; a target outside the cache keeps `CachedCoroutines` |
| `Resumable.Dispatcher.Suspend` | src/tbb/task.cpp:95-115 | with the default dispatcher recalled, the thread goes to it without touching the cache or the reference count, and its recall flag is cleared on landing; otherwise the target and the arena afterwards are those of `ArenaState.CreateCoroutine`, with a new dispatcher only when the cache was empty; in every case the callback action carrying this dispatcher's suspend point (created here on first use, targeting this dispatcher on the thread's arena and own stack) is recorded and then runs exactly once after the switch. Frame: this dispatcher and the new current one keep their critical-task property and suspend points (a new coroutine allows critical tasks and has a new point targeting it on a worker-sized stack); the default dispatcher afterwards has a suspend point that is not recalled, and when it is neither this nor the target it keeps its thread data, suspend point and critical-task property; on a recall the last cached dispatcher is unchanged, so only a popped cached dispatcher may change, and the cache keeps `CachedCoroutines` |
| `Resumable.Suspend` | src/tbb/task.cpp:41-45 | the thread's current dispatcher suspends, with the whole contract of `Dispatcher.Suspend` restated for the thread data: recall-or-coroutine choice, arena effect, the suspended point, the suspend points and critical-task properties of both dispatchers, the default dispatcher's frame (thread data, suspend point, critical-task property) and clear flag, the last cached dispatcher left unchanged on a recall, and the cache invariant; the cache afterwards is a prefix of the old one; so every requires of a further suspend holds again |
| `Resumable.Resume` | src/tbb/task.cpp:47-73 | requires the target dispatcher to be detached; the arena afterwards is `ArenaState.ResumeSuspendPoint` of the old arena, the suspend point and the target's critical-task flag |
| `Resumable.SuspendThenResume` | src/tbb/task.cpp:41-73 | after a suspend and a resume of the suspended point, that point targets the suspended, now detached dispatcher, the stream gains exactly that point's resume task (none when critical tasks are not allowed), the external count rises by one exactly when a coroutine was taken, and the cache keeps `CachedCoroutines` |
| `Resumable.CurrentSuspendPoint` | src/tbb/task.cpp:75-78 | the suspend point of the running dispatcher, which stays attached to the thread: the existing one if there is one, otherwise a new one targeting it on the thread's arena and own stack, not recalled; the critical-task property is unchanged |
| `Resumable.CreateCoroutine` | src/tbb/task.cpp:80-93 | the arena and the returned dispatcher are `ArenaState.CreateCoroutine` of the old arena; when the cache was empty the dispatcher is new, detached, and has a new suspend point sized by the market's worker stack size |
| `Resumable.NotifyWaiters` | src/tbb/task.cpp:227-233 | the market's wait list is split by `Waiters.NotifySplit` with the tag |

## Left out

- The physical stack switch (`m_co_context.resume`, `task.cpp:134`) and the coroutine context with its stack. Control transfer is modelled by running the target's resume tail (`Dispatcher.Land`).
- A newly created coroutine starts in its entry routine, which is not part of this model. The model assumes that routine consumes the pending action the same way the resume tail does. Such a coroutine is never a slot's default dispatcher, so the recall-flag clear does not apply to it.
- Memory orders, atomics and interleavings between threads. Each operation is one sequential step. The outcome of a lost CAS race is represented by the wait node's flag already being ready on entry.
- `recall_point()` after a suspend returns to an outermost dispatcher (`task.cpp:112-114`). That code runs only when the dispatcher is resumed again, and `recall_point` is not part of this model.
- The user callback run by the callback action is foreign code. `DoPostResumeAction` reports which wrapper it invokes (`CallbackInvoked`) and does nothing else.
- The critical-task stream (`task.cpp:62-65`, preview builds only). When `critical_task_allowed` is false, the model pushes nothing, as a build without that preview does.
- The lanes of the resume-task stream and `random_lane_selector`. The stream is one sequence.
- `arena::advertise_new_work` is only counted. The wake-up of workers is not modelled.
- `on_thread_leaving` decrements the external count, but arena teardown at zero is not modelled. `ArenaState.RunKeepsAccounting` shows the count stays positive while a coroutine is live.
- The 12-bit width of the external part of `my_references`, and its overflow past 4K references (`task.cpp:90`, which the source flags as unaddressed). External references are an unbounded counter, kept apart from worker references.
- `arena_co_cache` internals. The cache is an unbounded last-in-first-out pool. Its fixed capacity and the eviction of old entries on push are not modelled.
- Wait-list internals. `cancel_wait` removes the node. `notify` removes and returns the matching nodes, but what a woken node then does (flag exchange, resuming its suspend point) is not modelled.
- `wait_context::continue_execution` is modelled as "the reference count is positive", and `prepare_wait` as a node created not ready.
- The allocator (`cache_aligned_allocate`) is object allocation with `new`.
- The code of `task_dispatcher`'s constructor is not in `task.cpp`. `Dispatcher.constructor` assumes it makes a detached dispatcher without a suspend point that allows critical tasks.
- The code of `get_suspend_point` and `init_suspend_point` is not in `task.cpp`. `Dispatcher.GetSuspendPoint` assumes a suspend point is created on the thread's own stack on first use and reused afterwards. `Dispatcher.InitSuspendPoint` assumes it builds a point targeting its dispatcher with the given arena and stack size.
- The code that records the register-waiter action (the suspending side of a wait) is not in `task.cpp`. `Dispatcher.Resume` assumes that a register-waiter action always carries the waiter of the dispatcher that switches away: the node's suspend point targets that dispatcher.
- The code that records the cleanup action (the exit of a coroutine) is not in `task.cpp`. `Dispatcher.Resume` assumes that a cleanup action always carries the dispatcher that switches away. That dispatcher is never a slot's default and is not already cached.
- The stubs for platforms without resumable tasks (`task.cpp:212-223`) only assert.
- `governor::get_thread_data()` (thread-local state) is an explicit `ThreadData` parameter.
- The `__TBB_ASSERT`s on the callback pointers (`task.cpp:96-97`) are `requires` clauses on pointers modelled as naturals, with 0 as nullptr.
