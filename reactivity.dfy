/**
 * The reactive engine as a pure state-transition semantics. One `State` holds
 * every piece of global and closure state of the JavaScript files: the bucket,
 * each effect's reverse index `deps` and options, the effect stack and
 * `activeEffect`, the host objects, the job queue with its `isFlushing` flag,
 * the pending microtasks, and the closure variables of each computed value and
 * each watcher. The files differ in a handful of checkable ways; a `Variant`
 * selects the behaviour of one file.
 *
 * Effect bodies are closures in the source; here a body is a small expression
 * language (`Expr`) whose reads go through the proxy (`Get`), around it
 * (`Peek`), through a computed value or a `traverse`, and whose writes
 * (`Assign`) go through the set handler. Recursion is bounded by `fuel`: a run
 * that would need more nested effect runs than the fuel allows does nothing.
 */
module Reactivity {
  import opened Values
  import opened Deps

  /** What the set handler does around `Reflect.set`. */
  datatype SetHandler =
    | AlwaysTrigger      // write, then trigger unconditionally
    | TriggerIfChanged   // write, then trigger when the NaN-aware changed test holds
    | ClassifyWrite      // readonly check, SET/ADD classification, write, changed test

  /** The behaviour that distinguishes one source file from another. */
  datatype Variant = Variant(
    wrapper: bool,        // effects are wrapped: cleanup before each run, reverse index kept
    stack: bool,          // an effect stack is pushed and popped around each run
    pushFirst: bool,      // the wrapper pushes before cleanup (otherwise cleanup first)
    lazyAndResult: bool,  // the `lazy` option is honoured and a run returns `fn`'s result
    selfExclude: bool,    // trigger skips the active effect
    schedulers: bool,     // trigger hands an effect to `options.scheduler` when present
    defaultOptions: bool, // `options` defaults to `{}` (otherwise it may be undefined)
    targetGuard: bool,    // trigger returns when the target has no depsMap
    keyGuard: bool,       // a key without a Set collects nothing (otherwise a TypeError)
    fanOut: bool,         // array ADD and `length` writes also collect related keys
    liveIteration: bool,  // trigger runs the live Set instead of a copy
    handler: SetHandler,
    deepReads: bool)      // nested objects read through the proxy are themselves tracked

  /** The scheduler an effect's options carry. */
  datatype Scheduler =
    | NoScheduler
    | QueueScheduler            // jobQueue.add(fn); flushJob()
    | ComputedScheduler(c: nat) // dirty = true; trigger(obj, 'value') of computed c
    | WatchScheduler(w: nat)    // the job of watcher w, deferred when its flush is 'post'

  datatype Options = Options(lazy: bool, scheduler: Scheduler)

  /** An effect body. */
  datatype Expr =
    | Lit(value: Value)
    | Get(target: Target, key: Key)               // a read through the reactive proxy
    | Peek(target: Target, key: Key)              // a read that tracks nothing (raw or readonly)
    | Cond(test: Expr, yes: Expr, no: Expr)       // test ? yes : no
    | Plus(left: Expr, right: Expr)               // left + right
    | Then(first: Expr, second: Expr)             // first; second
    | Assign(target: Target, key: Key, rhs: Expr) // proxy[key] = rhs
    | ComputedValue(computed: nat)                // sumRes.value
    | Walk(root: Target)                          // traverse(proxy of root)
    | Spawn(body: Expr)                           // effect(() => body), nested

  /** The `fn` and `options` of one effect. */
  datatype EffectRec = EffectRec(body: Expr, options: Option<Options>)

  /** The closure variables of one `computed`. */
  datatype ComputedRec = ComputedRec(effect: EffectId, value: Value, dirty: bool)

  /** The closure variables and options of one `watch`. */
  datatype WatchRec = WatchRec(
    effect: EffectId, oldValue: Value, newValue: Value,
    cleanup: Option<nat>,  // the registered invalidation callback, by the call that registered it
    post: bool,            // options.flush === 'post'
    registers: bool)       // the callback calls onInvalidate

  /** A pending microtask: a queue flush, the `.finally` that ends it, or a deferred watch job. */
  datatype Task = FlushJobs | ClearFlushing | PostJob(watcher: nat)

  /** What the outside world observes: effect runs, watch callbacks, invalidations. */
  datatype Event =
    | Ran(effect: EffectId, result: Value)
    | Called(watcher: nat, newValue: Value, oldValue: Value)
    | Invalidated(call: nat)   // the callback registered by the Called event at this log index

  datatype State = State(
    bucket: Bucket,
    deps: map<EffectId, seq<Dep>>,
    stack: seq<EffectId>,
    active: Option<EffectId>,
    effects: map<EffectId, EffectRec>,
    objects: map<Target, JsObject>,
    jobQueue: seq<EffectId>,
    isFlushing: bool,
    microtasks: seq<Task>,
    computeds: map<nat, ComputedRec>,
    watchers: map<nat, WatchRec>,
    log: seq<Event>,
    nextId: nat)

  /** The result of an evaluation: the new state and a value or the error thrown. */
  datatype Run = Run(state: State, result: Result<Value>)

  /** The result of a statement: the new state and whether it threw. */
  datatype Step = Step(state: State, outcome: Outcome)

  /** The result of a registration: the new state, the new id, and whether it threw. */
  datatype Created = Created(state: State, id: nat, outcome: Outcome)

  function Init(objects: map<Target, JsObject>): State
  {
    State(map[], map[], [], None, map[], objects, [], false, [], map[], map[], [], 0)
  }

  function DepsOf(s: State, e: EffectId): seq<Dep>
  {
    if e in s.deps then s.deps[e] else []
  }

  function ObjectOf(s: State, t: Target): JsObject
  {
    if t in s.objects then s.objects[t] else EmptyObject
  }

  /** `target[key]` on the raw object. */
  function Read(s: State, t: Target, k: Key): Value
  {
    Prop(ObjectOf(s, t), k)
  }

  function Top(stack: seq<EffectId>): Option<EffectId>
  {
    if stack == [] then None else Some(stack[|stack| - 1])
  }

  function OutcomeOf(r: Result<Value>): Outcome
  {
    if r.Failure? then Thrown(r.reason) else Done
  }

  // ---------------------------------------------------------------------------
  // Invariants

  /** Each effect is in a Set exactly when that Set is listed in its reverse index. */
  ghost predicate Linked(bucket: Bucket, deps: map<EffectId, seq<Dep>>)
  {
    forall e, t, k :: e in Subscribers(bucket, t, k) <==>
      Dep(t, k) in (if e in deps then deps[e] else [])
  }

  /** Every effect id in use was handed out before `nextId`. */
  ghost predicate Bounded(bucket: Bucket, deps: map<EffectId, seq<Dep>>, effects: map<EffectId, EffectRec>,
                          stack: seq<EffectId>, active: Option<EffectId>, nextId: nat)
  {
    && (forall e, t, k :: e in Subscribers(bucket, t, k) ==> e < nextId)
    && (forall e | e in deps :: e < nextId)
    && (forall e | e in effects :: e < nextId)
    && (forall i | 0 <= i < |stack| :: stack[i] < nextId)
    && (active.Some? ==> active.value < nextId)
  }

  ghost predicate StackOk(v: Variant, stack: seq<EffectId>, active: Option<EffectId>)
  {
    if v.stack then v.wrapper && active == Top(stack) else stack == []
  }

  /**
   * The invariant every operation keeps: the store is well formed, ids are
   * bounded, the bucket and the reverse indexes agree (for wrapped effects), and
   * `activeEffect` is the top of the stack (for the stack variants).
   */
  ghost predicate Inv(v: Variant, s: State)
  {
    InvCore(v, s.bucket, s.deps, s.effects, s.stack, s.active, s.nextId)
  }

  ghost predicate InvCore(v: Variant, bucket: Bucket, deps: map<EffectId, seq<Dep>>,
                          effects: map<EffectId, EffectRec>, stack: seq<EffectId>,
                          active: Option<EffectId>, nextId: nat)
  {
    && WellFormed(bucket)
    && Bounded(bucket, deps, effects, stack, active, nextId)
    && (v.wrapper ==> Linked(bucket, deps))
    && StackOk(v, stack, active)
  }

  ghost predicate SameStack(a: State, b: State)
  {
    a.stack == b.stack && a.active == b.active
  }

  // ---------------------------------------------------------------------------
  // track, cleanup and the effect wrapper

  /**
   * `track(target, key)`: nothing without an active effect; otherwise the
   * active effect joins the Set of (target, key), created on demand, and (for
   * wrapped effects) that Set is appended to the effect's reverse index.
   */
  function Track(v: Variant, s: State, t: Target, k: Key): (r: State)
    ensures s.active.None? ==> r == s
    ensures s.active.Some? ==>
              && HasSet(r.bucket, t, k)
              && Subscribers(r.bucket, t, k) == SetAdd(Subscribers(s.bucket, t, k), s.active.value)
    ensures s.active.Some? && v.wrapper ==> DepsOf(r, s.active.value) == DepsOf(s, s.active.value) + [Dep(t, k)]
    ensures r == s.(bucket := r.bucket, deps := r.deps)
  {
    match s.active
    case None => s
    case Some(e) =>
      s.(bucket := AddSubscriber(s.bucket, t, k, e),
         deps := if v.wrapper then s.deps[e := DepsOf(s, e) + [Dep(t, k)]] else s.deps)
  }

  /** Track touches no other Set and no other effect's reverse index. */
  lemma TrackFrame(v: Variant, s: State, t: Target, k: Key)
    ensures var r := Track(v, s, t, k);
      && (forall t', k' | t' != t || k' != k :: Subscribers(r.bucket, t', k') == Subscribers(s.bucket, t', k'))
      && (forall e: EffectId | s.active.None? || s.active.value != e || !v.wrapper :: DepsOf(r, e) == DepsOf(s, e))
  {
  }

  lemma TrackInv(v: Variant, s: State, t: Target, k: Key)
    ensures Inv(v, s) ==> Inv(v, Track(v, s, t, k))
  {
    if Inv(v, s) && s.active.Some? {
      AddSubscriberWellFormed(s.bucket, t, k, s.active.value);
      TrackBounded(v, s, t, k);
      if v.wrapper {
        TrackLinked(v, s, t, k);
      }
    }
  }

  lemma TrackBounded(v: Variant, s: State, t: Target, k: Key)
    requires Bounded(s.bucket, s.deps, s.effects, s.stack, s.active, s.nextId)
    ensures var r := Track(v, s, t, k); Bounded(r.bucket, r.deps, r.effects, r.stack, r.active, r.nextId)
  {
    var r := Track(v, s, t, k);
    TrackFrame(v, s, t, k);
    forall e: EffectId, t', k' | e in Subscribers(r.bucket, t', k') ensures e < r.nextId {
      assert e in Subscribers(s.bucket, t', k') || Some(e) == s.active;
    }
  }

  lemma TrackLinked(v: Variant, s: State, t: Target, k: Key)
    requires v.wrapper && s.active.Some? && Linked(s.bucket, s.deps)
    ensures var r := Track(v, s, t, k); Linked(r.bucket, r.deps)
  {
    var r := Track(v, s, t, k);
    forall e: EffectId, t', k'
      ensures e in Subscribers(r.bucket, t', k') <==> Dep(t', k') in (if e in r.deps then r.deps[e] else [])
    {
      TrackLinkedAt(v, s, t, k, e, t', k');
    }
  }

  /** One pair of the correspondence TrackLinked re-establishes. */
  lemma TrackLinkedAt(v: Variant, s: State, t: Target, k: Key, e: EffectId, t': Target, k': Key)
    requires v.wrapper && s.active.Some? && Linked(s.bucket, s.deps)
    ensures var r := Track(v, s, t, k); e in Subscribers(r.bucket, t', k') <==> Dep(t', k') in DepsOf(r, e)
  {
    var r := Track(v, s, t, k);
    TrackFrame(v, s, t, k);
    assert e in Subscribers(s.bucket, t', k') <==> Dep(t', k') in DepsOf(s, e);
    if e == s.active.value {
      assert DepsOf(r, e) == DepsOf(s, e) + [Dep(t, k)];
      if t' == t && k' == k {
        assert e in Subscribers(r.bucket, t', k');
      } else {
        assert Subscribers(r.bucket, t', k') == Subscribers(s.bucket, t', k');
      }
    } else {
      assert DepsOf(r, e) == DepsOf(s, e);
      if t' == t && k' == k {
        assert e in Subscribers(r.bucket, t', k') <==> e in Subscribers(s.bucket, t', k');
      } else {
        assert Subscribers(r.bucket, t', k') == Subscribers(s.bucket, t', k');
      }
    }
  }

  /**
   * `cleanup(effectFn)`: delete the effect from every Set of its reverse index
   * and empty the index; no other effect's memberships change.
   */
  function Cleanup(v: Variant, s: State, e: EffectId): (r: State)
    ensures DepsOf(r, e) == []
    ensures forall t, k :: Subscribers(r.bucket, t, k) ==
              if Dep(t, k) in DepsOf(s, e) then SetDelete(Subscribers(s.bucket, t, k), e)
              else Subscribers(s.bucket, t, k)
    ensures forall e' | e' != e :: DepsOf(r, e') == DepsOf(s, e')
    ensures r == s.(bucket := r.bucket, deps := r.deps)
  {
    s.(bucket := RemoveFromAll(s.bucket, DepsOf(s, e), e), deps := s.deps[e := []])
  }

  /** Cleanup keeps the invariant and, for wrapped effects, leaves the effect in no Set. */
  lemma CleanupInv(v: Variant, s: State, e: EffectId)
    requires Inv(v, s) && e < s.nextId
    ensures Inv(v, Cleanup(v, s, e))
    ensures v.wrapper ==> forall t, k :: e !in Subscribers(Cleanup(v, s, e).bucket, t, k)
  {
  }

  /** `effectStack.push(e); activeEffect = e`. */
  function Push(s: State, e: EffectId): (r: State)
    ensures r.stack == s.stack + [e] && r.active == Some(e)
    ensures r == s.(stack := r.stack, active := r.active)
  {
    s.(stack := s.stack + [e], active := Some(e))
  }

  /** `effectStack.pop(); activeEffect = effectStack[effectStack.length - 1]`. */
  function Pop(s: State): (r: State)
    ensures |s.stack| > 0 ==> r.stack == s.stack[..|s.stack| - 1]
    ensures s.stack == [] ==> r.stack == []
    ensures r.active == Top(r.stack)
    ensures r == s.(stack := r.stack, active := r.active)
  {
    var rest := if s.stack == [] then [] else s.stack[..|s.stack| - 1];
    s.(stack := rest, active := Top(rest))
  }

  /** The part of `effectFn` before `fn()` runs. */
  function Enter(v: Variant, s: State, e: EffectId): (r: State)
    ensures !v.wrapper ==> r == s
    ensures v.wrapper ==> r.active == Some(e) && DepsOf(r, e) == []
    ensures v.wrapper && v.stack ==> r.stack == s.stack + [e]
    ensures v.wrapper && !v.stack ==> r.stack == s.stack
    ensures r == s.(bucket := r.bucket, deps := r.deps, stack := r.stack, active := r.active)
    ensures forall t, k, e' | e' != e :: e' in Subscribers(r.bucket, t, k) <==> e' in Subscribers(s.bucket, t, k)
  {
    if !v.wrapper then s
    else if !v.stack then Cleanup(v, s, e).(active := Some(e))
    else if v.pushFirst then Cleanup(v, Push(s, e), e)
    else Push(Cleanup(v, s, e), e)
  }

  /** The part of `effectFn` after `fn()` returns. */
  function Exit(v: Variant, s: State): (r: State)
    ensures !v.stack ==> r == s
    ensures v.stack ==> r == Pop(s)
  {
    if v.stack then Pop(s) else s
  }

  /** Entering keeps the invariant and, for wrapped effects, leaves the effect in no Set. */
  lemma EnterInv(v: Variant, s: State, e: EffectId)
    requires Inv(v, s) && e < s.nextId
    ensures Inv(v, Enter(v, s, e))
    ensures v.wrapper ==> forall t, k :: e !in Subscribers(Enter(v, s, e).bucket, t, k)
  {
    if v.wrapper {
      if !v.stack {
        CleanupInv(v, s, e);
      } else if v.pushFirst {
        CleanupInv(v, Push(s, e), e);
      } else {
        CleanupInv(v, s, e);
      }
    }
  }

  /** Exiting keeps the invariant. */
  lemma ExitInv(v: Variant, s: State)
    requires Inv(v, s)
    ensures Inv(v, Exit(v, s))
  {
  }

  // ---------------------------------------------------------------------------
  // trigger: collecting the effects to run

  /** The effect trigger leaves out: the active one, in the variants that exclude it. */
  function Exclusion(v: Variant, s: State): Option<EffectId>
  {
    if v.selfExclude then s.active else None
  }

  /** `src.forEach(x => { if (x !== ex) acc.add(x) })`. */
  function AddAll(acc: seq<EffectId>, src: seq<EffectId>, ex: Option<EffectId>): seq<EffectId>
    decreases |src|
  {
    if src == [] then acc
    else AddAll(if ex == Some(src[0]) then acc else SetAdd(acc, src[0]), src[1..], ex)
  }

  /**
   * The copy holds what it held before plus every effect of the Set except the
   * excluded one, each once, with the old elements kept in front.
   */
  lemma {:induction false} AddAllSpec(acc: seq<EffectId>, src: seq<EffectId>, ex: Option<EffectId>)
    ensures var r := AddAll(acc, src, ex);
      && (forall x :: x in r <==> x in acc || (x in src && (ex.None? || ex.value != x)))
      && (NoDup(acc) ==> NoDup(r))
      && |acc| <= |r| && r[..|acc|] == acc
    decreases |src|
  {
    if src != [] {
      var acc1 := if ex == Some(src[0]) then acc else SetAdd(acc, src[0]);
      AddAllSpec(acc1, src[1..], ex);
      assert forall x :: x in src <==> x == src[0] || x in src[1..];
      var r := AddAll(acc, src, ex);
      assert r[..|acc1|] == acc1;
      assert r[..|acc|] == acc1[..|acc|];
    }
  }

  function SetOf(dm: DepsMap, k: Key): seq<EffectId>
  {
    if k in dm.sets then dm.sets[k] else []
  }

  /** The length fan-out: `depsMap.forEach((effects, key) => { if (key >= newVal) ... })`. */
  function AddAtOrAbove(acc: seq<EffectId>, dm: DepsMap, keys: seq<Key>, newVal: Value, ex: Option<EffectId>)
    : seq<EffectId>
    decreases |keys|
  {
    if keys == [] then acc
    else
      var acc1 := if KeyAtOrAbove(keys[0], newVal) then AddAll(acc, SetOf(dm, keys[0]), ex) else acc;
      AddAtOrAbove(acc1, dm, keys[1..], newVal, ex)
  }

  /**
   * The length fan-out adds, each once, the subscribers of every key at or
   * above the new length, except the excluded effect.
   */
  lemma {:induction false} AddAtOrAboveSpec(acc: seq<EffectId>, dm: DepsMap, keys: seq<Key>, newVal: Value,
                                            ex: Option<EffectId>)
    ensures var r := AddAtOrAbove(acc, dm, keys, newVal, ex);
      && (forall x :: x in r <==>
            (x in acc || ((ex.None? || ex.value != x) && exists k :: k in keys && KeyAtOrAbove(k, newVal) && x in SetOf(dm, k))))
      && (NoDup(acc) ==> NoDup(r))
    decreases |keys|
  {
    if keys != [] {
      var acc1 := if KeyAtOrAbove(keys[0], newVal) then AddAll(acc, SetOf(dm, keys[0]), ex) else acc;
      AddAllSpec(acc, SetOf(dm, keys[0]), ex);
      AddAtOrAboveSpec(acc1, dm, keys[1..], newVal, ex);
      assert forall k :: k in keys <==> k == keys[0] || k in keys[1..];
    }
  }

  /** The effects `trigger(t, k, kind, newVal)` must run or schedule. */
  ghost predicate Wanted(v: Variant, s: State, t: Target, k: Key, kind: TriggerType, newVal: Value, e: EffectId)
  {
    && Exclusion(v, s) != Some(e)
    && (|| e in Subscribers(s.bucket, t, k)
        || (v.fanOut && ObjectOf(s, t).isArray && kind == AddOp && e in Subscribers(s.bucket, t, LengthKey))
        || (v.fanOut && ObjectOf(s, t).isArray && k == LengthKey &&
            exists k' :: KeyAtOrAbove(k', newVal) && e in Subscribers(s.bucket, t, k')))
  }

  const NoDepsMapError := "Cannot read properties of undefined (reading 'get')"
  const NoSetError := "Cannot read properties of undefined (reading 'forEach')"
  const NoOptionsError := "Cannot read properties of undefined (reading 'scheduler')"

  /** Whether collecting for (t, k) throws a TypeError in this variant. */
  predicate CollectThrows(v: Variant, s: State, t: Target, k: Key)
  {
    (t !in s.bucket && !v.targetGuard) || (t in s.bucket && k !in s.bucket[t].sets && !v.keyGuard)
  }

  /**
   * The copy `effectsToRun` that trigger builds: the Set of (t, k) without the
   * active effect, then for array.js the `length` subscribers of an array ADD and
   * the subscribers of index keys at or above a new `length`. Each effect appears
   * once, however many of those Sets hold it.
   */
  function Collect(v: Variant, s: State, t: Target, k: Key, kind: TriggerType, newVal: Value)
    : (r: Result<seq<EffectId>>)
    ensures r.Failure? <==> CollectThrows(v, s, t, k)
  {
    if t !in s.bucket then
      if v.targetGuard then Success([]) else Failure(NoDepsMapError)
    else if k !in s.bucket[t].sets && !v.keyGuard then
      Failure(NoSetError)
    else
      var dm := s.bucket[t];
      var ex := Exclusion(v, s);
      var isArray := ObjectOf(s, t).isArray;
      var own := AddAll([], Subscribers(s.bucket, t, k), ex);
      var withLength :=
        if v.fanOut && isArray && kind == AddOp then AddAll(own, Subscribers(s.bucket, t, LengthKey), ex) else own;
      Success(if v.fanOut && isArray && k == LengthKey then AddAtOrAbove(withLength, dm, dm.order, newVal, ex)
              else withLength)
  }

  /**
   * What trigger collects: each effect at most once, never the active effect
   * when the variant excludes it, and exactly the effects `Wanted` names.
   */
  lemma CollectSpec(v: Variant, s: State, t: Target, k: Key, kind: TriggerType, newVal: Value)
    requires WellFormed(s.bucket)
    ensures var r := Collect(v, s, t, k, kind, newVal);
      && (r.Success? ==> NoDup(r.value))
      && (r.Success? && v.selfExclude && s.active.Some? ==> s.active.value !in r.value)
      && (r.Success? ==> forall e :: e in r.value <==> Wanted(v, s, t, k, kind, newVal, e))
  {
    if t in s.bucket && !CollectThrows(v, s, t, k) {
      var dm := s.bucket[t];
      var ex := Exclusion(v, s);
      var isArray := ObjectOf(s, t).isArray;
      var own := AddAll([], Subscribers(s.bucket, t, k), ex);
      AddAllSpec([], Subscribers(s.bucket, t, k), ex);
      var withLength :=
        if v.fanOut && isArray && kind == AddOp then AddAll(own, Subscribers(s.bucket, t, LengthKey), ex) else own;
      AddAllSpec(own, Subscribers(s.bucket, t, LengthKey), ex);
      if v.fanOut && isArray && k == LengthKey {
        AddAtOrAboveSpec(withLength, dm, dm.order, newVal, ex);
        assert WellFormedMap(dm);
        assert forall k' :: k' in dm.order <==> k' in dm.sets;
      }
    }
  }

  // ---------------------------------------------------------------------------
  // traverse

  /** The result of `traverse`: the new state, the value returned, and the `seen` Set. */
  datatype Walked = Walked(state: State, value: Value, seen: set<Target>)

  lemma SubsetCard(a: set<Target>, b: set<Target>)
    requires a <= b
    ensures |a| <= |b|
    ensures a < b ==> |a| < |b|
    decreases |a|
  {
    if a != {} {
      var x :| x in a;
      SubsetCard(a - {x}, b - {x});
      assert |a| == |a - {x}| + 1 && |b| == |b - {x}| + 1;
      if a < b {
        var y :| y in b && y !in a;
        assert y in b - {x} && y !in a - {x};
      }
    } else if a < b {
      var y :| y in b;
    }
  }

  /**
   * `traverse(value, seen)`: a non-object or an object already seen gives
   * `undefined`; otherwise the object joins `seen`, each of its keys is read in
   * `for ... in` order (tracked when read through the proxy) and its value
   * traversed, and the object itself is returned.
   */
  function Traverse(v: Variant, s: State, x: Value, seen: set<Target>, tracked: bool): (r: Walked)
    ensures !x.Ref? || x.target in seen ==> r == Walked(s, Undefined, seen)
    ensures x.Ref? && x.target !in seen ==> r.value == x && x.target in r.seen
    ensures seen <= r.seen
    ensures r.state == s.(bucket := r.state.bucket, deps := r.state.deps)
    ensures !tracked ==> r.state == s
    decreases |s.objects.Keys - seen|, 0
  {
    if !x.Ref? || x.target in seen then Walked(s, Undefined, seen)
    else
      var t := x.target;
      if t !in s.objects then Walked(s, x, seen + {t})
      else
        SubsetCard(s.objects.Keys - (seen + {t}), s.objects.Keys - seen);
        var w := TraverseKeys(v, s, t, s.objects[t].keys, seen + {t}, tracked);
        Walked(w.state, x, w.seen)
  }

  /** The `for (const k in value) traverse(value[k], seen)` loop of `traverse`. */
  function TraverseKeys(v: Variant, s: State, t: Target, keys: seq<Key>, seen: set<Target>, tracked: bool)
    : (r: Walked)
    ensures seen <= r.seen
    ensures r.state == s.(bucket := r.state.bucket, deps := r.state.deps)
    ensures !tracked ==> r.state == s
    decreases |s.objects.Keys - seen|, 1, |keys|
  {
    if keys == [] then Walked(s, Undefined, seen)
    else
      var s1 := if tracked then Track(v, s, t, keys[0]) else s;
      var w := Traverse(v, s1, Read(s1, t, keys[0]), seen, tracked && v.deepReads);
      SubsetCard(s.objects.Keys - w.seen, s.objects.Keys - seen);
      TraverseKeys(v, w.state, t, keys[1..], w.seen, tracked)
  }

  /** The first turn of the loop of TraverseKeys, then the rest of the keys. */
  lemma TraverseKeysStep(v: Variant, s: State, t: Target, keys: seq<Key>, seen: set<Target>, tracked: bool)
    requires keys != []
    ensures var s1 := if tracked then Track(v, s, t, keys[0]) else s;
      var w := Traverse(v, s1, Read(s1, t, keys[0]), seen, tracked && v.deepReads);
      && w.state.objects == s.objects && seen <= w.seen
      && TraverseKeys(v, s, t, keys, seen, tracked) == TraverseKeys(v, w.state, t, keys[1..], w.seen, tracked)
  {
  }

  // ---------------------------------------------------------------------------
  // Running effects, triggering and scheduling

  /** JavaScript truthiness. */
  predicate Truthy(x: Value)
  {
    match x
    case Undefined => false
    case Null => false
    case Bool(b) => b
    case Num(n) => n != 0
    case NaN => false
    case Str(str) => str != ""
    case Ref(_) => true
  }

  /** `a + b` on numbers and on strings; any other mix is approximated by NaN. */
  function Add(a: Value, b: Value): Value
  {
    if a.Num? && b.Num? then Num(a.n + b.n)
    else if a.Str? && b.Str? then Str(a.s + b.s)
    else NaN
  }

  /** The options of an `effect(fn)` call without options. */
  function DefaultOptions(v: Variant): Option<Options>
  {
    if v.defaultOptions then Some(Options(false, NoScheduler)) else None
  }

  /** `if (!options.lazy) effectFn()`, or the unconditional first run of the variants without `lazy`. */
  predicate RunsAtCreation(v: Variant, opts: Option<Options>)
  {
    !(v.lazyAndResult && opts.Some? && opts.value.lazy)
  }

  /** `dirty = true` in the scheduler of computed c. */
  function MarkDirty(s: State, c: nat): (r: State)
    ensures r == s.(computeds := r.computeds)
    ensures c in s.computeds ==> r.computeds == s.computeds[c := s.computeds[c].(dirty := true)]
    ensures c !in s.computeds ==> r == s
  {
    if c in s.computeds then s.(computeds := s.computeds[c := s.computeds[c].(dirty := true)]) else s
  }

  /** `flushJob()`: nothing while flushing; otherwise set the flag and queue the flush microtask. */
  function FlushJob(s: State): (r: State)
    ensures s.isFlushing ==> r == s
    ensures !s.isFlushing ==> r == s.(isFlushing := true, microtasks := s.microtasks + [FlushJobs])
  {
    if s.isFlushing then s else s.(isFlushing := true, microtasks := s.microtasks + [FlushJobs])
  }

  /**
   * Evaluate an effect body. `Get` is a tracked read, `Assign` a write through
   * the set handler (the value of an assignment is its right-hand side), and a
   * TypeError thrown by a nested trigger propagates out.
   */
  function Eval(v: Variant, s: State, x: Expr, fuel: nat): (r: Run)
    decreases fuel, 7, x
  {
    match x
    case Lit(c) => Run(s, Success(c))
    case Get(t, k) =>
      var s1 := Track(v, s, t, k);
      Run(s1, Success(Read(s1, t, k)))
    case Peek(t, k) => Run(s, Success(Read(s, t, k)))
    case Cond(c, a, b) =>
      var rc := Eval(v, s, c, fuel);
      if rc.result.Failure? then rc
      else if Truthy(rc.result.value) then Eval(v, rc.state, a, fuel)
      else Eval(v, rc.state, b, fuel)
    case Plus(a, b) =>
      var ra := Eval(v, s, a, fuel);
      if ra.result.Failure? then ra
      else
        var rb := Eval(v, ra.state, b, fuel);
        if rb.result.Failure? then rb
        else Run(rb.state, Success(Add(ra.result.value, rb.result.value)))
    case Then(a, b) =>
      var ra := Eval(v, s, a, fuel);
      if ra.result.Failure? then ra else Eval(v, ra.state, b, fuel)
    case Assign(t, k, y) => EvalAssign(v, s, t, k, y, fuel)
    case ComputedValue(c) => ReadComputed(v, s, c, fuel)
    case Walk(t) =>
      var w := Traverse(v, s, Ref(t), {}, true);
      Run(w.state, Success(w.value))
    case Spawn(body) =>
      var c := Effect(v, s, body, DefaultOptions(v), fuel);
      Run(c.state, if c.outcome.Thrown? then Failure(c.outcome.reason) else Success(Undefined))
  }

  /** `proxy[key] = rhs`: the right-hand side first, then the write through the set handler. */
  function EvalAssign(v: Variant, s: State, t: Target, k: Key, y: Expr, fuel: nat): (r: Run)
    decreases fuel, 7, Assign(t, k, y), 0
  {
    var ry := Eval(v, s, y, fuel);
    if ry.result.Failure? then ry
    else
      var w := Write(v, ry.state, t, k, ry.result.value, false, fuel);
      Run(w.state, if w.outcome.Thrown? then Failure(w.outcome.reason) else ry.result)
  }

  /**
   * The set handler: `Reflect.set` on the raw object, then `trigger` as the
   * variant's handler decides. A write through a readonly proxy changes nothing.
   */
  function Write(v: Variant, s: State, t: Target, k: Key, x: Value, readonly: bool, fuel: nat): (r: Step)
    decreases fuel, 6
  {
    var o := ObjectOf(s, t);
    var s1 := s.(objects := s.objects[t := SetProperty(o, k, x)]);
    match v.handler
    case AlwaysTrigger => Trigger(v, s1, t, k, SetOp, x, fuel)
    case TriggerIfChanged =>
      if HasChanged(Prop(o, k), x) then Trigger(v, s1, t, k, SetOp, x, fuel) else Step(s1, Done)
    case ClassifyWrite =>
      if readonly then Step(s, Done)
      else if HasChanged(Prop(o, k), x) then Trigger(v, s1, t, k, Classify(o, k), x, fuel)
      else Step(s1, Done)
  }

  /** `trigger(target, key, type, newVal)`. */
  function Trigger(v: Variant, s: State, t: Target, k: Key, kind: TriggerType, newVal: Value, fuel: nat): (r: Step)
    ensures CollectThrows(v, s, t, k) ==> r.state == s && r.outcome.Thrown?
    decreases fuel, 5
  {
    match Collect(v, s, t, k, kind, newVal)
    case Failure(msg) => Step(s, Thrown(msg))
    case Success(list) => if v.liveIteration then LiveRun(v, s, t, k, 0, fuel) else Dispatch(v, s, list, fuel)
  }

  /** `effectsToRun.forEach(...)`: dispatch each collected effect in order; a throw ends the loop. */
  function Dispatch(v: Variant, s: State, list: seq<EffectId>, fuel: nat): (r: Step)
    decreases fuel, 4, |list|
  {
    if list == [] then Step(s, Done)
    else
      var r1 := DispatchOne(v, s, list[0], fuel);
      if r1.outcome.Thrown? then r1 else Dispatch(v, r1.state, list[1..], fuel)
  }

  /** `effects.forEach(fn => fn())` over the live Set, which grows while it is iterated. */
  function LiveRun(v: Variant, s: State, t: Target, k: Key, i: nat, fuel: nat): (r: Step)
    decreases fuel, 4
  {
    var live := Subscribers(s.bucket, t, k);
    if fuel == 0 || i >= |live| then Step(s, Done)
    else
      var a := RunEffect(v, s, live[i], fuel);
      if a.result.Failure? then Step(a.state, Thrown(a.result.reason))
      else LiveRun(v, a.state, t, k, i + 1, fuel - 1)
  }

  /** One iteration of the dispatch loop: `options.scheduler(effectFn)` if there is one, else `effectFn()`. */
  function DispatchOne(v: Variant, s: State, e: EffectId, fuel: nat): (r: Step)
    decreases fuel, 3
  {
    if !v.schedulers || e !in s.effects then
      var a := RunEffect(v, s, e, fuel);
      Step(a.state, OutcomeOf(a.result))
    else
      match s.effects[e].options
      case None => Step(s, Thrown(NoOptionsError))
      case Some(o) =>
        match o.scheduler
        case NoScheduler =>
          var a := RunEffect(v, s, e, fuel);
          Step(a.state, OutcomeOf(a.result))
        case QueueScheduler => Step(FlushJob(s.(jobQueue := SetAdd(s.jobQueue, e))), Done)
        case ComputedScheduler(c) =>
          var s1 := MarkDirty(s, c);
          if fuel == 0 then Step(s1, Done) else Trigger(v, s1, Cell(c), ValueKey, SetOp, Undefined, fuel - 1)
        case WatchScheduler(w) =>
          if w !in s.watchers then Step(s, Done)
          else if s.watchers[w].post then Step(s.(microtasks := s.microtasks + [PostJob(w)]), Done)
          else Job(v, s, w, fuel)
  }

  /**
   * The `job` of watcher w: re-run the getter for the new value, call the
   * registered invalidation callback if any, call `cb(newValue, oldValue)`,
   * then roll `oldValue` over to the new value.
   */
  function Job(v: Variant, s: State, w: nat, fuel: nat): (r: Step)
    decreases fuel, 2
  {
    if w !in s.watchers then Step(s, Done)
    else
      var a := RunEffect(v, s, s.watchers[w].effect, fuel);
      if a.result.Failure? then Step(a.state, Thrown(a.result.reason))
      else
        var s1 := a.state;
        var nv := a.result.value;
        var wr := if w in s1.watchers then s1.watchers[w] else s.watchers[w];
        var s2 := if wr.cleanup.Some? then s1.(log := s1.log + [Invalidated(wr.cleanup.value)]) else s1;
        var s3 := s2.(log := s2.log + [Called(w, nv, wr.oldValue)]);
        var wr' := wr.(newValue := nv, oldValue := nv, cleanup := if wr.registers then Some(|s2.log|) else wr.cleanup);
        Step(s3.(watchers := s3.watchers[w := wr']), Done)
  }

  /**
   * The `value` getter of computed c: when dirty, run the effect, cache its
   * result and clear the flag; then track (c, 'value') and return the cache.
   */
  function ReadComputed(v: Variant, s: State, c: nat, fuel: nat): (r: Run)
    decreases fuel, 2
  {
    if c !in s.computeds then Run(s, Success(Undefined))
    else
      var cr := s.computeds[c];
      var a := if cr.dirty then RunEffect(v, s, cr.effect, fuel) else Run(s, Success(cr.value));
      if a.result.Failure? then a
      else
        var s2 := if cr.dirty then a.state.(computeds := a.state.computeds[c := ComputedRec(cr.effect, a.result.value, false)])
                  else a.state;
        Run(Track(v, s2, Cell(c), ValueKey), a.result)
  }

  /**
   * The set-up half of `effect(fn, options)`: the wrapper gets the next id, its
   * options and an empty reverse index; the variants without a wrapper make
   * `fn` the active effect at once.
   */
  function Register(v: Variant, s: State, body: Expr, opts: Option<Options>): (r: State)
    ensures r == s.(nextId := s.nextId + 1, effects := s.effects[s.nextId := EffectRec(body, opts)],
                    deps := s.deps[s.nextId := []], active := if v.wrapper then s.active else Some(s.nextId))
  {
    var e := s.nextId;
    var s1 := s.(nextId := e + 1, effects := s.effects[e := EffectRec(body, opts)], deps := s.deps[e := []]);
    if v.wrapper then s1 else s1.(active := Some(e))
  }

  /**
   * `effect(fn, options)`: register the effect under a fresh id with an empty
   * reverse index and run it unless it is lazy.
   */
  function Effect(v: Variant, s: State, body: Expr, opts: Option<Options>, fuel: nat): (r: Created)
    ensures r.id == s.nextId
    ensures !RunsAtCreation(v, opts) ==>
              && r.outcome == Done
              && r.state.effects == s.effects[r.id := EffectRec(body, opts)]
              && r.state.bucket == s.bucket && r.state.log == s.log && r.state.objects == s.objects
    decreases fuel, 1
  {
    var s1 := Register(v, s, body, opts);
    if RunsAtCreation(v, opts) then
      var a := RunEffect(v, s1, s.nextId, fuel);
      Created(a.state, s.nextId, OutcomeOf(a.result))
    else Created(s1, s.nextId, Done)
  }

  /**
   * `effectFn()`: enter (cleanup, push or overwrite `activeEffect`), run `fn`,
   * exit (pop and restore), log the run. A throw skips the exit: there is no
   * `try`/`finally` around `fn`.
   */
  function RunEffect(v: Variant, s: State, e: EffectId, fuel: nat): (r: Run)
    decreases fuel, 0
  {
    if fuel == 0 || e !in s.effects then Run(s, Success(Undefined))
    else
      var a := Eval(v, Enter(v, s, e), s.effects[e].body, fuel - 1);
      if a.result.Failure? then a
      else
        var s3 := Exit(v, a.state);
        Run(s3.(log := s3.log + [Ran(e, a.result.value)]),
            Success(if v.lazyAndResult then a.result.value else Undefined))
  }

  // ---------------------------------------------------------------------------
  // computed, watch and the job queue

  /**
   * `computed(getter)`: a lazy effect whose scheduler marks the cache dirty and
   * triggers (c, 'value'); the cache starts empty and dirty.
   */
  function Computed(v: Variant, s: State, getter: Expr, fuel: nat): (r: Created)
    ensures r.id == s.nextId && r.id in r.state.computeds
    ensures r.state.computeds[r.id].dirty && r.state.computeds[r.id].effect == s.nextId + 1
    ensures v.lazyAndResult ==>
              && r.state.computeds[r.id].effect in r.state.effects
              && r.state.effects[r.state.computeds[r.id].effect] ==
                   EffectRec(getter, Some(Options(true, ComputedScheduler(r.id))))
              && r.state.log == s.log && r.state.bucket == s.bucket
  {
    var c := s.nextId;
    var made := Effect(v, s.(nextId := c + 1), getter, Some(Options(true, ComputedScheduler(c))), fuel);
    Created(made.state.(computeds := made.state.computeds[c := ComputedRec(made.id, Undefined, true)]), c, made.outcome)
  }

  /** What `watch` watches: a getter function, or a reactive object that is traversed. */
  datatype Source = Getter(body: Expr) | Reactive(target: Target)

  /** `watch`'s options: `immediate`, and `flush === 'post'`. */
  datatype WatchOptions = WatchOptions(immediate: bool, post: bool)

  /** `typeof source === 'function' ? source : () => traverse(source)`. */
  function WatchGetter(src: Source): (r: Expr)
    ensures src.Getter? ==> r == src.body
    ensures src.Reactive? ==> r == Walk(src.target)
  {
    match src
    case Getter(body) => body
    case Reactive(t) => Walk(t)
  }

  /**
   * The set-up half of `watch(source, cb, options)`: a lazy effect over the
   * getter whose scheduler runs the job (deferred for 'post'), and the closure
   * variables of the watcher. `registers` says whether `cb` calls `onInvalidate`.
   */
  function WatchSetUp(v: Variant, s: State, src: Source, opts: WatchOptions, registers: bool, fuel: nat): (r: Created)
    ensures r.id == s.nextId && r.id in r.state.watchers
    ensures r.state.watchers[r.id] == WatchRec(s.nextId + 1, Undefined, Undefined, None, opts.post, registers)
  {
    var w := s.nextId;
    var made := Effect(v, s.(nextId := w + 1), WatchGetter(src), Some(Options(true, WatchScheduler(w))), fuel);
    var rec := WatchRec(made.id, Undefined, Undefined, None, opts.post, registers);
    Created(made.state.(watchers := made.state.watchers[w := rec]), w, made.outcome)
  }

  /** `oldValue = effectFn()`: the first run of the getter of watcher w, without `immediate`. */
  function WatchFirstRun(v: Variant, s: State, w: nat, fuel: nat): (r: Created)
    requires w in s.watchers
    ensures r.id == w
  {
    var rec := s.watchers[w];
    var a := RunEffect(v, s, rec.effect, fuel);
    if a.result.Failure? then Created(a.state, w, Thrown(a.result.reason))
    else
      var wr := if w in a.state.watchers then a.state.watchers[w] else rec;
      Created(a.state.(watchers := a.state.watchers[w := wr.(oldValue := a.result.value)]), w, Done)
  }

  /**
   * `watch(source, cb, options)`: after the set-up, with `immediate` the job
   * runs at once; otherwise the getter runs once and its result becomes
   * `oldValue`.
   */
  function Watch(v: Variant, s: State, src: Source, opts: WatchOptions, registers: bool, fuel: nat): (r: Created)
    ensures r.id == s.nextId
  {
    var reg := WatchSetUp(v, s, src, opts, registers, fuel);
    if opts.immediate then
      var st := Job(v, reg.state, reg.id, fuel);
      Created(st.state, reg.id, st.outcome)
    else WatchFirstRun(v, reg.state, reg.id, fuel)
  }

  /**
   * `jobQueue.forEach(job => job())` from position i on. The Set is iterated
   * live and only ever grows, so a job queued during the flush still runs.
   */
  function RunJobs(v: Variant, s: State, i: nat, fuel: nat): (r: Step)
    decreases fuel
  {
    if fuel == 0 || i >= |s.jobQueue| then Step(s, Done)
    else
      var a := RunEffect(v, s, s.jobQueue[i], fuel);
      if a.result.Failure? then Step(a.state, Thrown(a.result.reason))
      else RunJobs(v, a.state, i + 1, fuel - 1)
  }

  /**
   * Run the oldest pending microtask: a queue flush (whose `.finally` then
   * queues the flag reset), the flag reset, or a deferred watch job.
   */
  function Microtask(v: Variant, s: State, fuel: nat): (r: Step)
    ensures s.microtasks == [] ==> r == Step(s, Done)
  {
    if s.microtasks == [] then Step(s, Done)
    else
      var s1 := s.(microtasks := s.microtasks[1..]);
      match s.microtasks[0]
      case FlushJobs =>
        var st := RunJobs(v, s1, 0, fuel);
        Step(st.state.(microtasks := st.state.microtasks + [ClearFlushing]), st.outcome)
      case ClearFlushing => Step(s1.(isFlushing := false), Done)
      case PostJob(w) => Job(v, s1, w, fuel)
  }

  // ---------------------------------------------------------------------------
  // The source files as variants

  /** step3.js: raw effects, no reverse index, trigger runs the live Set. */
  const Step3: Variant := Variant(
    wrapper := false, stack := false, pushFirst := false, lazyAndResult := false,
    selfExclude := false, schedulers := false, defaultOptions := true,
    targetGuard := true, keyGuard := true, fanOut := false, liveIteration := true,
    handler := AlwaysTrigger, deepReads := false)

  /** step4.js, step5.js and step5-before.js: wrapper with cleanup, no stack, trigger runs a copy. */
  const Step4: Variant := Step3.(wrapper := true, liveIteration := false)

  /** prac.js: as step4.js, but trigger has no depsMap guard. */
  const Prac: Variant := Step4.(targetGuard := false)

  /**
   * prac-22_5_3.js and prac-22_5_4.js: stack, push before cleanup, reverse index
   * before Set, self-exclusion and schedulers, but no guard on a missing key Set.
   */
  const Prac22: Variant := Step4.(stack := true, pushFirst := true, selfExclude := true,
                                  schedulers := true, keyGuard := false)

  /** step7-1.js: stack, self-exclusion, schedulers; `options` has no default. */
  const Step71: Variant := Step4.(stack := true, selfExclude := true, schedulers := true,
                                  defaultOptions := false)

  /** computed.js and watch.js: as step7-1.js with `options = {}`, `lazy` and run results. */
  const Lazy: Variant := Step71.(defaultOptions := true, lazyAndResult := true)

  /** with-reflect.js: as computed.js, with the changed test in the set handler. */
  const WithReflect: Variant := Lazy.(handler := TriggerIfChanged)

  /** array.js: as with-reflect.js, with SET/ADD classification, readonly, fan-out and deep reads. */
  const ArrayJs: Variant := WithReflect.(handler := ClassifyWrite, fanOut := true, deepReads := true)
}
