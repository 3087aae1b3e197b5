# A verified model of a step-by-step Vue-3-style reactivity engine

The repository builds a fine-grained reactivity engine in thirteen stages, one
JavaScript file per stage. This project models those stages in Dafny and proves
what each of them promises.

The engine works like this:
- A read through a reactive proxy calls `track`. That subscribes the active
  effect to the (target, key) pair in the `bucket`. It also records the
  pair's Set in the effect's reverse index `deps`.
- A write goes through the set handler to `trigger`. Trigger collects the
  subscribers and runs each one, or hands it to its `scheduler`.
- The effect wrapper runs `cleanup` before each run and keeps an effect
  stack.
- On top of this come a batched `jobQueue` with an `isFlushing` flag,
  `computed` values (a dirty flag, a cache, and a manual `track`/`trigger` of
  `value`), and `watch`. Watch covers getter selection, `traverse`, the
  roll-over of `oldValue`/`newValue`, `onInvalidate`, `immediate` and
  `flush: 'post'`.

## Layout

- `values.dfy` (module `Values`): values, keys and host objects. It also holds
  the pure part of array.js's set handler: the SET/ADD classification, the
  NaN-aware changed test, and `Reflect.set` on arrays.
- `deps.dfy` (module `Deps`): the dependency store. A target maps to a depsMap,
  and a depsMap maps a key to a Set. A JavaScript Set is a duplicate-free
  sequence kept in insertion order.
- `reactivity.dfy` (module `Reactivity`): the whole engine as a pure state
  transition over one `State`.
  - The `State` holds every global and closure variable of the files.
  - Effect bodies are a small expression language (`Expr`).
  - The files differ in a few checkable ways. A `Variant` record of flags
    selects one file's behaviour, and the constants `Step3`, `Step4`, `Prac`,
    `Prac22`, `Step71`, `Lazy`, `WithReflect` and `ArrayJs` name them:

    | Variant | Files |
    |---|---|
    | Step3 | step3.js |
    | Step4 | step4.js, step5.js, step5-before.js |
    | Prac | prac.js |
    | Prac22 | prac-22_5_3.js, prac-22_5_4.js |
    | Step71 | step7-1.js |
    | Lazy | computed.js, watch.js |
    | WithReflect | with-reflect.js |
    | ArrayJs | array.js |
- `runtime.dfy` (module `Runtime`): the imperative engine. Class `Engine` has
  one field per global variable: bucket, deps, effect stack, `activeEffect`,
  job queue, `isFlushing`, and so on.
  - Every method updates those fields in place.
  - Every method's `ensures` says the new state is the corresponding
    `Reactivity` function applied to the old state.
- `invariant.dfy` (module `Invariant`): every operation keeps the engine
  invariant `Inv`:
  - the store is well formed;
  - ids are bounded;
  - bucket membership and the reverse indexes agree;
  - `activeEffect` is the top of the stack.

  An effect run that returns leaves the stack as it found it.
- `properties.dfy` (module `Properties`): what a run of an effect that only
  reads computes and subscribes to. This covers cleanup of stale branches and
  nested effects with and without a stack.
- `scheduling.dfy` (module `Scheduling`):
  - the set handler's decision to trigger;
  - dispatch order;
  - the batched job queue;
  - computed caching and notification;
  - the watch job.
- `step2.dfy` (modules `Step2` and `Step2Runtime`): the first stage, which has a
  single global Set. It has its own pure model and its own imperative class.

I/O and the host are left as follows:
- `console.log`, `console.warn` and `document.body.innerText` are not modelled.
- Every effect run appears in `log`, as does every watch callback and
  invalidation callback.
- Promise microtasks are the explicit pending list `microtasks`. `Microtask`
  runs the oldest one.
- The Proxy is not modelled. Its get trap is the `Get` expression, and its set
  trap is `Write`.

Behaviour of the code worth noting:
- No file wraps `fn` in `try`/`finally`. A throw inside an effect leaves the
  effect pushed and `activeEffect` unrestored; nothing is claimed for that
  path.
- `flushJob` never clears `jobQueue`. A later flush runs every job ever queued
  (`Scheduling.FlushRunsQueue` keeps `jobQueue` unchanged).
- The watch job re-runs the getter before it calls the previous invalidation
  callback (`Scheduling.JobPlain`).
- `effectFn()` returns `fn`'s result only in computed.js, watch.js,
  with-reflect.js and array.js. The other stages discard it.

## Model

| member | source | states |
|---|---|---|
| Values.HasChanged | with-reflect.js:59 | the set handler notifies exactly when the old and new values differ; a NaN replaced by NaN is no change |
| Values.StrictEquals | with-reflect.js:59 | `===`: identity on references; NaN is not equal to itself; see `HasChanged` |
| Values.KeyNumber | array.js:74 | `Number(key)` for an index key; other names are NaN |
| Values.ToNumber | array.js:144 | `Number(newVal)` for numbers, null and booleans; other values are NaN |
| Values.KeyAtOrAbove | array.js:144 | `key >= newVal`, numerically: only index keys can satisfy it; see `AddAtOrAboveSpec`, `LengthFanOut` |
| Values.ArrayLength | array.js:74 | `target.length` of an array |
| Values.KeepBelow | array.js:76 | the keys that survive a truncation to length n: exactly the non-index keys and the indices below n |
| Values.Classify | array.js:73-75 | on an array, SET exactly when the key is an index below the length, so a `length` write is ADD; on an object, SET exactly for an own key |
| Values.SetProperty | array.js:76 | after `Reflect.set` the key holds the new value; every other property is unchanged, except an array's length and the indices a shorter length drops; the `for ... in` order gains at most the written key, and an array's `length` never joins it |
| Deps.SetAdd | array.js:114 | `Set.add`: members are the old ones plus e; no duplicates; the old elements keep their order at the front |
| Deps.SetDelete | array.js:42 | `Set.delete`: members are the old ones minus e; deleting an absent effect changes nothing |
| Deps.AddSubscriber | array.js:106-114 | the depsMap and the Set are created on demand; e ends up in the Set of (t, k); no other Set changes |
| Deps.AddSubscriberWellFormed | array.js:106-114 | adding a subscriber keeps every Set duplicate-free and every depsMap's key order consistent |
| Deps.AddToMapWellFormed | array.js:110-114 | the same for the one depsMap that changes |
| Deps.RemoveSubscriber | array.js:41-42 | deleting e from one Set removes e from that Set only and creates or drops no Set |
| Deps.RemoveFromMapWellFormed | array.js:42 | deleting from one existing Set keeps its depsMap well formed |
| Deps.RemoveFromAll | array.js:40-43 | the cleanup loop removes e from exactly the Sets listed and from no others |
| Deps.SetDeleteTwice | array.js:40-43 | `deps` may list a Set twice; deleting e again is harmless |
| Reactivity.Track | array.js:104-116 | with no active effect nothing changes; otherwise the active effect joins the Set of (t, k), created on demand; for wrapped effects the pair is appended to that effect's `deps`; only the bucket and the reverse index change |
| Reactivity.TrackFrame | array.js:104-116 | track changes no other Set, and no reverse index but the active wrapped effect's |
| Reactivity.TrackBounded | array.js:104-116 | track keeps every Set and reverse index within the registered effects |
| Reactivity.TrackInv | step7-1.js:51-63 | track keeps the engine invariant |
| Reactivity.TrackLinked | array.js:114-115 | track links effect and Set in both directions, so bucket and reverse index agree |
| Reactivity.TrackLinkedAt | array.js:114-115 | the same agreement for one effect and one (target, key) pair |
| Reactivity.CleanupInv | array.js:39-46 | cleanup keeps the invariant and leaves a wrapped effect in no Set at all |
| Reactivity.Cleanup | array.js:39-46 | the effect's `deps` is empty afterwards; exactly the Sets it listed lose the effect; every other effect's `deps` is untouched; with the invariant, the effect is in no Set at all |
| Reactivity.Push | prac-22_5_3.js:9-12 | the effect is appended to the stack and becomes active |
| Reactivity.Pop | prac-22_5_3.js:14-17 | the top is removed and `activeEffect` is the new top, or undefined for an empty stack |
| Reactivity.Enter | array.js:15-20 | before `fn`: raw effects change nothing; wrapped effects are detached from every Set and become active, pushed when there is a stack; no other effect's memberships change |
| Reactivity.Exit | array.js:22-25 | after `fn`: with a stack, pop and restore; without one, nothing; the invariant is kept |
| Reactivity.EnterInv | array.js:15-20 | entering a run keeps the invariant and leaves a wrapped effect in no Set |
| Reactivity.ExitInv | array.js:22-25 | leaving a run keeps the invariant |
| Reactivity.AddAllSpec | array.js:123-128 | copying the Set into `effectsToRun` gives exactly the old members plus the Set's effects minus the excluded one; no duplicates arise; the old members keep their place at the front |
| Reactivity.AddAtOrAboveSpec | array.js:143-151 | the length fan-out gives exactly the old members plus the subscribers of every key `>= newVal` (index keys only) minus the excluded effect; no duplicates arise |
| Reactivity.Collect | prac-22_5_3.js:76-81 | collection fails with a TypeError exactly when the target has no depsMap in a variant without that guard, or the key has no Set in a variant without that guard |
| Reactivity.CollectSpec | array.js:118-152 | the run set never holds the active effect when the variant excludes it, holds each effect at most once however many Sets it is in, and holds exactly the subscribers of the key plus, for arrays, the `length` subscribers of an ADD and the index subscribers at or past a new `length` |
| Reactivity.Trigger | prac.js:54-57 | when collection throws, trigger throws and changes nothing |
| Reactivity.Traverse | with-reflect.js:120-129 | a non-object or an already seen object gives undefined and changes nothing; otherwise the object joins `seen` and is returned; `seen` only grows; only the store changes; the walk terminates and tracks each key of the root once, also for a cyclic object |
| Reactivity.TraverseKeys | with-reflect.js:125-127 | the `for ... in` loop of traverse only grows `seen` and only changes the store |
| Reactivity.TraverseKeysStep | with-reflect.js:125-127 | one turn of that loop leaves the raw objects alone and only grows `seen`; the loop then goes on with the remaining keys |
| Reactivity.Truthy | step4.js:75 | the truthiness the conditional `obj.ok ? obj.text : 'text'` tests: undefined, null, false, 0, NaN and the empty string are falsy; see `StaleBranchDropped` |
| Reactivity.Add | computed.js:110 | `obj.foo + obj.bar`: numbers add and strings concatenate |
| Reactivity.DefaultOptions | array.js:14 | the options of an `effect(fn)` call without options: `{}` where the file gives that default, none otherwise |
| Reactivity.RunsAtCreation | array.js:31-34 | an effect runs at creation unless `options.lazy` is set in a file that knows `lazy`; see `Effect`, `EffectReadOnly` |
| Reactivity.Eval | array.js:50-55 | evaluates an effect body: a read through the get trap tracks then returns the raw value, an assignment goes through the set handler, a TypeError propagates; its properties are `EvalReadOnly` and `EvalInv` |
| Reactivity.EvalAssign | array.js:65-82 | an assignment: the right-hand side, then the set handler; a TypeError of the write becomes the result; see `EvalAssignInv` |
| Reactivity.Write | array.js:65-82 | the set handler of each file: readonly writes do nothing; otherwise store, then trigger always (watch.js and before) or only on a change (with-reflect.js, array.js, with SET/ADD in array.js); see `WriteAlwaysTriggers`, `WriteUnchanged`, `WriteChanged`, `WriteReadonly`, `WriteThrows`, `WriteInv` |
| Reactivity.Dispatch | array.js:155-161 | runs the collected effects in order, stopping at a throw; see `DispatchHead`, `DispatchInOrder`, `DispatchInv` |
| Reactivity.LiveRun | step3.js:37 | runs the live Set by position, so an effect added while it runs is visited; one unit of fuel per turn; see `LiveRunInv` |
| Reactivity.DispatchOne | array.js:156-160 | calls the effect's scheduler if it has one, else runs it; a missing options object throws; see `DispatchOneInv`, `QueueDispatch`, `ComputedSchedulerOnlyMarks`, `WatchSchedule` |
| Reactivity.Job | with-reflect.js:149-158 | the watch job: getter, previous invalidation callback, `cb(newValue, oldValue)`, roll-over of `oldValue`; see `JobPlain`, `JobFresh`, `JobInv` |
| Reactivity.ReadComputed | computed.js:135-143 | the `value` getter: a dirty cache runs the effect and is refilled and cleaned; then `value` is tracked; see `ComputedHit`, `ComputedMiss`, `ReadComputedInv` |
| Reactivity.RunEffect | array.js:15-27 | `effectFn()`: enter, run `fn`, exit, log the run; a throw skips the exit; see `RunReadOnly`, `RunPlain`, `RunEffectInv` |
| Reactivity.WatchFirstRun | with-reflect.js:179 | `oldValue = effectFn()`; the result names the watcher; see `WatchFirstRunPlain` |
| Reactivity.Watch | with-reflect.js:131-181 | `watch()`: set-up, then the job with `immediate`, else the first run; the result names the new watcher; see `WatchRegister`, `WatchImmediate`, `WatchSubscribes`, `WatchInv` |
| Reactivity.RunJobs | with-reflect.js:116 | the live `jobQueue.forEach`, one unit of fuel per job; see `RunJobsHead`, `RunJobsInOrder`, `RunJobsInv` |
| Reactivity.Microtask | with-reflect.js:114-117 | runs the oldest pending microtask: the flush then queues its `.finally`; an empty list does nothing; see `FlushRunsQueue`, `FlushEnds`, `MicrotaskInv` |
| Reactivity.MarkDirty | computed.js:126-128 | the computed scheduler sets `dirty` of that computed and changes nothing else |
| Reactivity.FlushJob | with-reflect.js:111-118 | while flushing nothing happens; otherwise the flag is set and one flush microtask is queued |
| Reactivity.Register | array.js:28-30 | the new effect gets the next id, its options and an empty `deps`; raw effects (step3.js:7) become active at once |
| Reactivity.Effect | array.js:31-36 | a lazy effect is registered and not run: no Set, no log entry, no object changes |
| Reactivity.Computed | computed.js:118-132 | creating a computed does not evaluate the getter: the cache starts dirty over a lazy effect whose scheduler is the computed's |
| Reactivity.WatchGetter | watch.js:120-125 | a function source is the getter itself; any other source becomes `traverse(source)` |
| Reactivity.WatchSetUp | with-reflect.js:140-174 | the watcher record starts with undefined old and new values and no invalidation callback, over the next effect id |
| Invariant.RegisterInv | array.js:28-30 | registering an effect keeps the invariant |
| Invariant.EvalInv | array.js:21 | evaluating a body keeps the invariant, and a body that returns leaves the stack as it found it |
| Invariant.EvalCondInv | array.js:21 | the same for a conditional |
| Invariant.EvalPairInv | array.js:21 | the same for a sum or a sequence of two bodies |
| Invariant.EvalAssignInv | array.js:65-82 | the same for an assignment through the proxy |
| Invariant.AssignStepInv | array.js:65-82 | the write that ends an assignment keeps the invariant and the stack the right-hand side left |
| Invariant.WriteInv | array.js:65-82 | the set handler keeps the invariant |
| Invariant.TriggerInv | array.js:118-162 | trigger keeps the invariant |
| Invariant.DispatchInv | array.js:155-161 | the dispatch loop keeps the invariant |
| Invariant.LiveRunInv | step3.js:37 | running the live Set keeps the invariant |
| Invariant.DispatchOneInv | array.js:156-160 | a scheduler call or a direct run keeps the invariant |
| Invariant.DirectInv | array.js:158-160 | a direct run of an effect without scheduler keeps the invariant and, when it returns, the stack |
| Invariant.ComputedSchedulerInv | computed.js:126-131 | the computed scheduler keeps the invariant |
| Invariant.MarkDirtyInv | computed.js:126-128 | setting `dirty` keeps the invariant and the stack |
| Invariant.DispatchComputed | computed.js:126-131 | dispatching to the computed scheduler marks the cache dirty, then triggers (computed, `value`) |
| Invariant.WatchSchedulerInv | with-reflect.js:164-172 | the watch scheduler keeps the invariant |
| Invariant.JobInv | with-reflect.js:149-158 | the watch job keeps the invariant |
| Invariant.ReadComputedInv | computed.js:135-143 | reading a computed keeps the invariant |
| Invariant.EffectInv | array.js:14-37 | `effect()` keeps the invariant |
| Invariant.RunEffectInv | array.js:15-27 | a run keeps the invariant; with a stack, a run that returns restores stack and `activeEffect` |
| Invariant.TraverseInv | with-reflect.js:120-129 | traverse keeps the invariant |
| Invariant.TraverseKeysInv | with-reflect.js:125-127 | the traverse loop keeps the invariant |
| Invariant.ComputedInv | computed.js:118-147 | `computed()` keeps the invariant |
| Invariant.WatchInv | with-reflect.js:131-181 | `watch()` keeps the invariant |
| Invariant.WatchSetUpInv | with-reflect.js:160-174 | the watch effect's set-up keeps the invariant |
| Invariant.RunJobsInv | with-reflect.js:116 | running the job queue keeps the invariant |
| Invariant.MicrotaskInv | with-reflect.js:114-117 | running a pending microtask keeps the invariant |
| Properties.TrackedThen | array.js:104-116 | the subscriptions of two reads in sequence are those of their concatenation |
| Properties.TrackTracked | array.js:104-116 | one `track` subscribes the active effect to exactly the one key read |
| Properties.EvalReadOnly | array.js:50-55 | a body that only reads yields its value over the raw objects and subscribes the active effect to exactly the keys it reads, in order; only the taken branch of a conditional counts |
| Properties.EvalReadOnlyLeaf | array.js:50-55 | the same for a literal, a tracked read and a readonly read |
| Properties.EvalReadOnlyCond | array.js:50-55 | the same for a conditional |
| Properties.EvalReadOnlyPair | array.js:50-55 | the same for a sum or a sequence of two bodies |
| Properties.RunReadOnly | array.js:15-27 | a run of a reading effect logs one run with the body's value; it returns that value where `effectFn` returns `res`; with a stack it restores stack and `activeEffect`; without one the effect stays active (step4.js:10) |
| Properties.ReadsAfterEnter | step4.js:7-11 | after cleanup, the reads of the run are exactly the effect's subscriptions, and other effects are untouched |
| Properties.RunEffectStore | array.js:15-27 | the bucket after a run is the one the body's evaluation left, after cleanup and entry |
| Properties.ResubscribeExactly | step5.js:11-19 | after a run of a reading wrapped effect, it is in exactly the Sets this run read; stale Sets are gone; no other effect's membership changes |
| Properties.StaleBranchDropped | step4.js:75 | for `obj.ok ? obj.text : 'text'`, after a run the effect is in `ok`'s Set, and in `text`'s Set exactly when `ok` is truthy; so `ok = false` (step4.js:80) or a missing `ok` (step5.js:5-7) drops `text` |
| Properties.TriggerNobody | step5.js:55-63 | a trigger for a pair with no subscribers, in a variant that neither throws nor fans out for it, changes nothing |
| Properties.EffectReadOnly | array.js:32-36 | a non-lazy `effect()` of a reading body runs exactly once at creation with the body's value; with a stack the caller's `activeEffect` is restored; without one the new effect stays active |
| Properties.EffectSubscribes | step5.js:9-18 | after `effect()` the new effect is subscribed to exactly the reads of its first run; no other membership changes |
| Properties.RawRunSubscribes | step3.js:6-9 | a raw effect (no wrapper, no reverse index) that is active ends up in exactly the Sets it read |
| Properties.SpawnReadOnly | step5-before.js:69-72 | a nested `effect()` inside a running effect runs the inner body once and subscribes only the inner effect |
| Properties.NestedWithStack | prac-22_5_4.js:103-111 | with a stack, after the inner effect returns, the outer body's next read (`obj.foo`) subscribes the outer effect, so writing `obj.foo` reaches it |
| Properties.NestedWithoutStack | step5-before.js:66-75 | without a stack, the outer body's next read subscribes the inner effect and leaves the outer effect's memberships as they were, so writing `obj.foo` (line 81) reaches the inner effect |
| Properties.TrackKeeps | array.js:104-116 | `track` only adds: every subscriber of every Set is still there afterwards |
| Properties.TraverseKeeps | with-reflect.js:120-129 | `traverse` only adds subscribers |
| Properties.TraverseKeysKeeps | with-reflect.js:125-127 | the loop of `traverse` only adds subscribers |
| Properties.TraverseKeysSubscribes | with-reflect.js:125-127 | the tracked loop subscribes the active effect to every key it walks |
| Properties.TraverseCovers | array.js:180-189 | when nested reads are tracked, every object `traverse` enters has the active effect subscribed to all its keys |
| Properties.TraverseKeysCovers | array.js:185-187 | the same for the loop over one object's keys |
| Properties.WalkSubscribes | with-reflect.js:120-129 | `traverse(proxy)` with an active effect keeps every subscriber and subscribes the effect to every key of the root object, and with tracked nested reads to every key of every object reached |
| Scheduling.RunPlain | array.js:15-27 | a run of an effect whose getter only reads or traverses logs one run with the getter's value, changes only store, stack and log, and keeps the invariant |
| Scheduling.WriteAlwaysTriggers | watch.js:50-53 | the set handler of the early stages stores the value and triggers, an unchanged value included |
| Scheduling.WriteUnchanged | with-reflect.js:54-62 | writing the value already stored (NaN over NaN included) stores it and triggers nothing |
| Scheduling.WriteChanged | array.js:72-80 | a changed value is stored and triggered, with array.js's SET/ADD classification or as SET |
| Scheduling.WriteReadonly | array.js:67-70 | a write through a readonly proxy neither stores nor triggers and succeeds |
| Scheduling.WriteUnread | step3.js:57-59 | writing a key nobody read (`notExist`) stores the value and runs no effect |
| Scheduling.WriteThrows | prac.js:54-57 | writing an untracked target in prac.js, or an unread key in the prac-22_5 files, stores the value and then throws |
| Scheduling.TruncationCollectsIndex | array.js:273-279 | setting `length` of a one-element array to 0 is an ADD trigger whose run set holds, once, every effect that read index 0 |
| Scheduling.LengthFanOut | array.js:140-152 | a `length` write of 0 on an array collects each effect that read an index, once |
| Scheduling.DispatchHead | array.js:155-161 | the first collected effect without scheduler runs first, logs its value, and the loop continues with the rest |
| Scheduling.DispatchInOrder | step4.js:56-58 | the run set is run in collection order, each effect once, logging exactly one run each |
| Scheduling.TriggerRunsEach | with-reflect.js:83-101 | a trigger over a copied Set runs exactly the wanted subscribers, each once, in collection order |
| Scheduling.QueueDispatch | step7-1.js:110-116 | the queueing scheduler adds the effect to `jobQueue` (a Set, so a repeated trigger leaves one entry), runs nothing now, and queues at most one flush |
| Scheduling.FlushJobTwice | step7-1.js:93-95 | a second `flushJob` while flushing does nothing |
| Scheduling.RunJobsInOrder | with-reflect.js:116 | the flush runs the jobs in insertion order, each once |
| Scheduling.RunJobsHead | with-reflect.js:116 | the first job of a flush runs once, logs its getter's value, keeps the invariant and changes only store, stack and log; the flush goes on from the next job |
| Scheduling.FlushRunsQueue | with-reflect.js:114-117 | the flush microtask runs every queued job in order, keeps the invariant, never empties `jobQueue`, and queues the `.finally` flag reset |
| Scheduling.FlushEnds | with-reflect.js:117 | the `.finally` microtask clears `isFlushing` |
| Scheduling.TwoWritesOneRun | step7-1.js:119-121 | two synchronous writes leave one queued job and no run; the flush then runs it once, seeing the final value |
| Scheduling.ComputedHit | computed.js:136-142 | a read of a clean computed returns the cache without running the getter, and tracks (computed, `value`) |
| Scheduling.ComputedMiss | computed.js:136-141 | a read of a dirty computed runs the getter once, caches its value, clears `dirty` and subscribes the reading effect to `value` |
| Scheduling.ComputedReadTwice | computed.js:136-142 | two reads with no change in between run the getter once and give the same value |
| Scheduling.ComputedSchedulerOnlyMarks | computed.js:126-131 | when a dependency changes, the computed's scheduler only sets `dirty` and triggers `value`; it does not recompute |
| Scheduling.ComputedNotifiesReader | computed.js:153-163 | the scheduler's trigger of `value` re-runs an outer effect that reads the computed, which recomputes the getter exactly once |
| Scheduling.ReaderRerun | computed.js:157-161 | re-running an outer effect over a dirty computed recomputes once and logs the outer run with the fresh value |
| Scheduling.ReaderRunEffect | computed.js:135-143 | the run of that outer effect logs the getter's run, then its own with the same value, and caches the value as clean |
| Scheduling.DispatchSingle | array.js:155-161 | a run set of one effect is that effect's dispatch, ending `Done` unless it threw |
| Scheduling.JobPlain | with-reflect.js:149-158 | the watch job re-runs the getter, calls the previous invalidation callback if any, calls `cb(newValue, oldValue)`, then sets `oldValue` to the new value; `onInvalidate` replaces the stored callback, so only the latest is called (lines 145-147) |
| Scheduling.ObjectSourceSameValue | watch.js:157-163 | a watched object is returned by `traverse` itself, so `cb` receives the same reference as new and old value, and it stays `oldValue` |
| Scheduling.WatchSetUpFacts | with-reflect.js:160-174 | watch's set-up creates the lazy getter effect with the watch scheduler and runs nothing |
| Scheduling.WatchRegister | watch.js:130-146 | without `immediate`, registration runs the getter once, calls no `cb`, and stores the getter's value as `oldValue` |
| Scheduling.RunWalkSubscribes | watch.js:124 | a run of the getter `() => traverse(source)` subscribes its effect to every key of the source |
| Scheduling.WatchSubscribes | watch.js:157-165 | after `watch(obj, cb)`, with or without `immediate`, the getter effect is in the Set of every key of `obj`, so a write such as `obj.bar++` reaches the watcher |
| Scheduling.WatchFirstRunPlain | with-reflect.js:179 | `oldValue = effectFn()` with a reading getter runs it once, ends `Done`, and stores its value as `oldValue` and nothing else |
| Scheduling.WatchImmediate | with-reflect.js:176-178 | with `immediate`, the job runs at registration, so `cb` is called once with undefined as old value |
| Scheduling.JobFresh | with-reflect.js:149-158 | the first job of a watcher runs the getter once and calls `cb(newValue, undefined)`, with no invalidation callback to call; new and old value become the getter's value |
| Scheduling.WatchSchedule | with-reflect.js:164-172 | with `flush: 'post'` the scheduler defers the job to a microtask that is that same job; otherwise the job runs at once |
| Runtime.AddEach | array.js:123-128 | the loop that copies a Set into `effectsToRun` computes `AddAll` |
| Runtime.AddEachAtOrAbove | array.js:143-151 | the loop over `depsMap` for a `length` write computes `AddAtOrAbove` |
| Runtime.RemoveEach | array.js:40-43 | the cleanup loop computes `RemoveFromAll` |
| Runtime.Engine.constructor | array.js:1-4 | a new engine has an empty bucket, empty stack, no active effect, empty job queue and the given objects |
| Runtime.Engine.Track | array.js:104-116 | updates the fields as `Track` specifies |
| Runtime.Engine.Cleanup | array.js:39-46 | updates the fields as `Cleanup` specifies |
| Runtime.Engine.Enter | array.js:15-20 | updates the fields as `Enter` specifies |
| Runtime.Engine.Exit | array.js:23-25 | updates the fields as `Exit` specifies |
| Runtime.Engine.Collect | array.js:118-152 | returns the run set `Collect` specifies (see `CollectSpec`) and changes nothing |
| Runtime.Engine.Eval | array.js:50-55 | evaluates a body as `Eval` specifies |
| Runtime.Engine.EvalAssign | array.js:65-82 | an assignment, as `EvalAssign` specifies |
| Runtime.Engine.Write | array.js:65-82 | the set handler, as `Write` specifies |
| Runtime.Engine.Trigger | array.js:118-162 | as `Trigger` specifies |
| Runtime.Engine.Dispatch | array.js:155-161 | as `Dispatch` specifies |
| Runtime.Engine.LiveRun | step3.js:37 | runs the live Set, as `LiveRun` specifies |
| Runtime.Engine.DispatchOne | array.js:156-160 | as `DispatchOne` specifies |
| Runtime.Engine.Job | with-reflect.js:149-158 | as `Job` specifies (see `JobPlain`) |
| Runtime.Engine.ReadComputed | computed.js:135-143 | as `ReadComputed` specifies (see `ComputedHit`, `ComputedMiss`) |
| Runtime.Engine.Effect | array.js:14-37 | as `Effect` specifies |
| Runtime.Engine.RunEffect | array.js:15-27 | as `RunEffect` specifies |
| Runtime.Engine.Traverse | with-reflect.js:120-129 | as `Traverse` specifies |
| Runtime.Engine.TraverseKeys | with-reflect.js:125-127 | as `TraverseKeys` specifies |
| Runtime.Engine.TraverseKey | with-reflect.js:125-127 | one turn of that loop, as the first step of `TraverseKeys` (see `TraverseKeysStep`) |
| Runtime.Engine.FlushJob | with-reflect.js:111-118 | as `FlushJob` specifies |
| Runtime.Engine.RunJobs | with-reflect.js:116 | as `RunJobs` specifies (see `RunJobsInOrder`) |
| Runtime.Engine.Microtask | with-reflect.js:114-117 | as `Microtask` specifies |
| Runtime.Engine.Computed | computed.js:118-147 | as `Computed` specifies |
| Runtime.ComputedUnfold | computed.js:118-132 | `computed()` is the lazy effect registration followed by the dirty cache record under the computed's id |
| Runtime.Engine.Watch | with-reflect.js:131-181 | as `Watch` specifies (see `WatchRegister`, `WatchImmediate`) |
| Runtime.Engine.WatchFirstRun | with-reflect.js:179 | `oldValue = effectFn()`, as `WatchFirstRun` specifies |
| Step2.Get | step2.js:11-16 | a read with an effect set adds that effect to the one global Set, whatever the key, keeping a single entry; returns the raw value |
| Step2.Lookup | step2.js:15 | `target[key]`: a missing key reads as undefined |
| Step2.Set | step2.js:17-21 | the set trap: store, then the live `forEach` over the whole Set whatever the key; see `WriteRunsAll` |
| Step2.RunAll | step2.js:19 | the live `forEach` by position, one unit of fuel per turn; see `RunAllQuiet` |
| Step2.Run | step2.js:29 | `fn()`: log the run and evaluate the body; see `RunQuiet` |
| Step2.Eval | step2.js:32-35 | evaluates an effect body: reads through the get trap, writes through the set trap; see `EvalQuiet` |
| Step2.Effect | step2.js:27-30 | `effect(fn)`: `fn` becomes active under the next id and runs once; see `EffectOnce` |
| Step2.EvalQuiet | step2.js:11-15 | a reading body yields its value and leaves the active effect in the Set once, if it read anything |
| Step2.RunQuiet | step2.js:19 | running an already subscribed reading effect only logs a run |
| Step2.RunAllQuiet | step2.js:19 | `forEach` over the live Set runs the remaining effects once each, in insertion order |
| Step2.WriteRunsAll | step2.js:17-21 | every write stores the value and runs every effect in the Set once, in order, whatever the key |
| Step2.EffectOnce | step2.js:27-30 | `effect(fn)` makes `fn` active, runs it once, and appends it to the Set if it reads |
| Step2.NotExistReruns | step2.js:32-40 | writing `notExist` re-runs the effect that read only `text`, so it runs twice |
| Step2Runtime.Engine.constructor | step2.js:1-8 | an empty Set and no active effect over the given data |
| Step2Runtime.Engine.Get | step2.js:11-16 | the get trap, as `Step2.Get` specifies |
| Step2Runtime.Engine.Set | step2.js:17-21 | the set trap, as `Step2.Set` specifies |
| Step2Runtime.Engine.RunAll | step2.js:19 | the live `forEach` loop, as `Step2.RunAll` specifies |
| Step2Runtime.Engine.Run | step2.js:29 | `fn()`, as `Step2.Run` specifies |
| Step2Runtime.Engine.Eval | step2.js:32-35 | an effect body, as `Step2.Eval` specifies |
| Step2Runtime.Engine.Effect | step2.js:27-30 | `effect(fn)`, as `Step2.Effect` specifies |

## Left out

- `new Proxy`, `Reflect.get`/`Reflect.set` and receivers: reads and writes are the explicit `Get`/`Assign` expressions and `Write`; only the set handler's classification and changed test are modelled.
- Recursive `reactive`/`readonly` wrapping of nested objects and the `isShallow` flag (array.js:56-62): they concern object identity in the host. The `deepReads` flag (array.js only) says that nested objects read during a traverse are tracked; the fresh proxy array.js returns for each nested read is not modelled (see `Reactivity.Traverse` below).
- The closures passed to `effect`, `computed` and `watch`: they are the expression language `Expr`. A `cb` of `watch` is its log event plus the flag `registers`, which says whether it calls `onInvalidate`.
- `delayResult` (not defined in the repository), the asynchronous expiry demonstration, `JSON.parse(JSON.stringify(...))`, `console.log`, `console.warn`, `document.body.innerText`: host I/O and foreign calls.
- Promise timing: microtasks are an explicit pending list that `Microtask` drains one task at a time; real interleaving with other host tasks and timers is not modelled.
- Exceptions inside `fn` other than the TypeErrors of `trigger`: no file has `try`/`finally`, so nothing is claimed about stack restoration on a throw.
- Floating point and `-0`: numbers are integers; `+` on anything but two numbers or two strings is approximated by NaN. Only canonical array-index names ("0", "1", ...) are `Index` keys; every other name is a `Name` and converts to NaN.
- Values.Classify: a name other than a canonical index that `Number()` converts to a number below the length ("", "-1", "1.5") is SET in array.js:74 but ADD in the model, which then also runs the `length` subscribers (array.js:130-137).
- Values.SetProperty: a non-numeric `length` write such as `arr.length = '0'` truncates the array in JavaScript; the model stores the string and truncates nothing.
- Values.KeyAtOrAbove: when `newVal` is a string, array.js:144 compares `key >= newVal` as strings; the model treats the string as NaN, so the length fan-out collects nothing.
- Reactivity.Traverse: in array.js a nested read returns a fresh `reactive(res)` proxy (array.js:59-61, no proxy cache at array.js:86-88), so `seen.has` (array.js:182) never matches a nested object: a cyclic object recurses until the stack overflows and a shared object is walked once per path. The model keeps `seen` on raw targets for every file, so it walks each object once and always terminates. In with-reflect.js and watch.js, `seen` receives the root's proxy (with-reflect.js:122-123) while the get trap returns raw nested values (with-reflect.js:50-52): a cycle back to the root reaches the raw root, which `seen` misses, and its keys are walked a second time, untracked. That extra untracked walk subscribes nothing and is not modelled.
- WeakMap garbage collection: the bucket is a finite map keyed by target id.
- Function identity of effects: each `effect()` call gets a fresh id, as in every demonstration; registering one closure object twice is not modelled.
- The order of `for ... in` is the object's key insertion order; JavaScript's ascending order of integer keys is not modelled.
- Effect recursion is bounded by `fuel`. Fuel is spent once per nested run and once per turn of each live loop: the live Set of step3.js (`LiveRun`), the flush over `jobQueue` (`RunJobs`) and step2.js's `forEach` (`Step2.RunAll`). A run or a loop turn the fuel does not reach does nothing, so unbounded re-triggering (an effect that writes what it reads, or a live Set that keeps growing) is cut off rather than looping. This is why `RunJobsInOrder`, `FlushRunsQueue` and `WriteRunsAll` require at least as much fuel as there are effects to run.
- prac.js replaces `deps` with a fresh array, and prac-22_5_3.js pushes the Set onto `deps` before adding the effect. Neither difference is observable, so both share the other variants' `Cleanup` and `Track`.
- `Reactivity.Watch`, `Reactivity.WatchFirstRun`, `Reactivity.Eval`, `Reactivity.Write`, `Reactivity.Dispatch`, `Reactivity.LiveRun`, `Reactivity.DispatchOne`, `Reactivity.Job`, `Reactivity.ReadComputed`, `Reactivity.RunEffect`, `Reactivity.RunJobs` and `Reactivity.Microtask` keep their properties in the lemmas named in the table, not in their own contracts.
- Scheduling.TriggerRunsEach: proved for run sets whose effects have no scheduler and getters that only read or traverse (`Direct`). An effect that writes triggers again from inside the loop.
- Scheduling.RunJobsInOrder: proved for queues whose jobs only read or traverse (`PlainAll`). A job that writes can add jobs to the live `jobQueue` during the flush.
- Scheduling.FlushRunsQueue: proved for queues whose jobs only read or traverse (`PlainAll`); a job that writes can grow the live `jobQueue`.
- Scheduling.DispatchInOrder: run order and run count are proved for effects whose getters only read or traverse (`Plain`). For bodies that write, order follows from the definitions but is not stated as a lemma.
- Step2.WriteRunsAll: proved for effects whose bodies only read. A body that writes re-enters the set trap, and the fuel then bounds the recursion.
