/**
 * The engine as the source writes it: global and closure state held in the
 * fields of one object and updated in place, loops over Sets and arrays, and
 * mutually recursive calls. Every method is proved to leave exactly the state
 * (and return exactly the result) that the pure semantics of module
 * Reactivity prescribes, so every property proved there holds of these
 * methods.
 */
module Runtime {
  import opened Values
  import opened Deps
  import opened Reactivity

  /** `src.forEach(x => { if (x !== ex) acc.add(x) })`. */
  method AddEach(acc: seq<EffectId>, src: seq<EffectId>, ex: Option<EffectId>) returns (r: seq<EffectId>)
    ensures r == AddAll(acc, src, ex)
  {
    r := acc;
    var i := 0;
    while i < |src|
      invariant 0 <= i <= |src|
      invariant AddAll(r, src[i..], ex) == AddAll(acc, src, ex)
    {
      assert src[i..][1..] == src[i + 1..];
      if ex != Some(src[i]) {
        r := SetAdd(r, src[i]);
      }
      i := i + 1;
    }
  }

  /** `effectFn.deps.forEach(dep => dep.delete(effectFn))`. */
  method RemoveEach(b: Bucket, ds: seq<Dep>, e: EffectId) returns (r: Bucket)
    ensures r == RemoveFromAll(b, ds, e)
  {
    r := b;
    var i := 0;
    while i < |ds|
      invariant 0 <= i <= |ds|
      invariant RemoveFromAll(r, ds[i..], e) == RemoveFromAll(b, ds, e)
    {
      assert ds[i..][1..] == ds[i + 1..];
      r := RemoveSubscriber(r, ds[i], e);
      i := i + 1;
    }
  }

  /**
   * The loop over `depsMap` that a write to an array's `length` adds: the
   * subscribers of every index at or above the new length.
   */
  method AddEachAtOrAbove(acc: seq<EffectId>, dm: DepsMap, keys: seq<Key>, newVal: Value, ex: Option<EffectId>)
    returns (r: seq<EffectId>)
    ensures r == AddAtOrAbove(acc, dm, keys, newVal, ex)
  {
    r := acc;
    var i := 0;
    while i < |keys|
      invariant 0 <= i <= |keys|
      invariant AddAtOrAbove(r, dm, keys[i..], newVal, ex) == AddAtOrAbove(acc, dm, keys, newVal, ex)
    {
      assert keys[i..][1..] == keys[i + 1..];
      if KeyAtOrAbove(keys[i], newVal) {
        r := AddEach(r, SetOf(dm, keys[i]), ex);
      }
      i := i + 1;
    }
  }

  class Engine {
    const variant: Variant
    var bucket: Bucket
    var deps: map<EffectId, seq<Dep>>        // effectFn.deps of every effect
    var stack: seq<EffectId>                 // effectStack
    var active: Option<EffectId>             // activeEffect
    var effects: map<EffectId, EffectRec>    // fn and options of every effect
    var objects: map<Target, JsObject>       // the raw objects behind the proxies
    var jobQueue: seq<EffectId>
    var isFlushing: bool
    var microtasks: seq<Task>
    var computeds: map<nat, ComputedRec>     // value and dirty of every computed
    var watchers: map<nat, WatchRec>         // oldValue, newValue, cleanup of every watch
    var log: seq<Event>
    var nextId: nat

    /** The state these fields hold. */
    function St(): State
      reads this
    {
      State(bucket, deps, stack, active, effects, objects, jobQueue, isFlushing, microtasks,
            computeds, watchers, log, nextId)
    }

    constructor(v: Variant, objs: map<Target, JsObject>)
      ensures variant == v && St() == Init(objs)
    {
      variant := v;
      bucket := map[];
      deps := map[];
      stack := [];
      active := None;
      effects := map[];
      objects := objs;
      jobQueue := [];
      isFlushing := false;
      microtasks := [];
      computeds := map[];
      watchers := map[];
      log := [];
      nextId := 0;
    }

    /**
     * `track(target, key)`. The prac-22_5_* variants push the Set onto `deps`
     * before adding the effect to it; the end state is the same.
     */
    method Track(t: Target, k: Key)
      modifies this
      ensures St() == Reactivity.Track(variant, old(St()), t, k)
    {
      if active.None? {
        return;
      }
      var e := active.value;
      var depsMap := if t in bucket then bucket[t] else EmptyDepsMap;
      if k !in depsMap.sets {
        depsMap := DepsMap(depsMap.order + [k], depsMap.sets[k := []]);
      }
      if variant.wrapper && variant.pushFirst {
        deps := deps[e := DepsOf(St(), e) + [Dep(t, k)]];
      }
      bucket := bucket[t := DepsMap(depsMap.order, depsMap.sets[k := SetAdd(depsMap.sets[k], e)])];
      if variant.wrapper && !variant.pushFirst {
        deps := deps[e := DepsOf(St(), e) + [Dep(t, k)]];
      }
    }

    /** `cleanup(effectFn)`: the loop over `effectFn.deps`, then `deps.length = 0`. */
    method Cleanup(e: EffectId)
      modifies this
      ensures St() == Reactivity.Cleanup(variant, old(St()), e)
    {
      bucket := RemoveEach(bucket, DepsOf(St(), e), e);
      deps := deps[e := []];
    }

    /** The start of `effectFn`: cleanup and push (in the variant's order), or overwrite `activeEffect`. */
    method Enter(e: EffectId)
      modifies this
      ensures St() == Reactivity.Enter(variant, old(St()), e)
    {
      if !variant.wrapper {
        return;
      }
      if variant.stack && variant.pushFirst {
        stack := stack + [e];
        active := Some(e);
        Cleanup(e);
      } else {
        Cleanup(e);
        if variant.stack {
          stack := stack + [e];
        }
        active := Some(e);
      }
    }

    /** The end of `effectFn`: pop, and make the new top active. */
    method Exit()
      modifies this
      ensures St() == Reactivity.Exit(variant, old(St()))
    {
      if variant.stack {
        if stack != [] {
          stack := stack[..|stack| - 1];
        }
        active := Top(stack);
      }
    }

    /** The loops of `trigger` that build `effectsToRun`. */
    method Collect(t: Target, k: Key, kind: TriggerType, newVal: Value) returns (r: Result<seq<EffectId>>)
      ensures r == Reactivity.Collect(variant, St(), t, k, kind, newVal)
    {
      if t !in bucket {
        return if variant.targetGuard then Success([]) else Failure(NoDepsMapError);
      }
      var depsMap := bucket[t];
      if k !in depsMap.sets && !variant.keyGuard {
        return Failure(NoSetError);
      }
      var ex := Exclusion(variant, St());
      var isArray := ObjectOf(St(), t).isArray;
      var effectsToRun := AddEach([], Subscribers(bucket, t, k), ex);
      if variant.fanOut && isArray && kind == AddOp {
        effectsToRun := AddEach(effectsToRun, Subscribers(bucket, t, LengthKey), ex);
      }
      if variant.fanOut && isArray && k == LengthKey {
        effectsToRun := AddEachAtOrAbove(effectsToRun, depsMap, depsMap.order, newVal, ex);
      }
      return Success(effectsToRun);
    }

    /**
     * The body of an effect, run statement by statement. A TypeError thrown by
     * a nested trigger propagates out as a `Failure`.
     */
    method Eval(x: Expr, fuel: nat) returns (r: Result<Value>)
      modifies this
      ensures Run(St(), r) == Reactivity.Eval(variant, old(St()), x, fuel)
      decreases fuel, 7, x
    {
      match x
      case Lit(c) =>
        r := Success(c);
      case Get(t, k) =>
        Track(t, k);
        r := Success(Read(St(), t, k));
      case Peek(t, k) =>
        r := Success(Read(St(), t, k));
      case Cond(c, a, b) =>
        r := Eval(c, fuel);
        if r.Success? {
          if Truthy(r.value) {
            r := Eval(a, fuel);
          } else {
            r := Eval(b, fuel);
          }
        }
      case Plus(a, b) =>
        var ra := Eval(a, fuel);
        if ra.Failure? {
          return ra;
        }
        var rb := Eval(b, fuel);
        if rb.Failure? {
          return rb;
        }
        r := Success(Add(ra.value, rb.value));
      case Then(a, b) =>
        r := Eval(a, fuel);
        if r.Success? {
          r := Eval(b, fuel);
        }
      case Assign(t, k, y) =>
        r := EvalAssign(t, k, y, fuel);
      case ComputedValue(c) =>
        r := ReadComputed(c, fuel);
      case Walk(t) =>
        var value, _ := Traverse(Ref(t), {}, true);
        r := Success(value);
      case Spawn(body) =>
        var _, o := Effect(body, DefaultOptions(variant), fuel);
        r := if o.Thrown? then Failure(o.reason) else Success(Undefined);
    }

    /** An assignment statement: the right-hand side, then the `set` handler. */
    method EvalAssign(t: Target, k: Key, y: Expr, fuel: nat) returns (r: Result<Value>)
      modifies this
      ensures Run(St(), r) == Reactivity.EvalAssign(variant, old(St()), t, k, y, fuel)
      decreases fuel, 7, Assign(t, k, y), 0
    {
      r := Eval(y, fuel);
      if r.Success? {
        var o := Write(t, k, r.value, false, fuel);
        if o.Thrown? {
          r := Failure(o.reason);
        }
      }
    }

    /** The proxy's `set` handler. */
    method Write(t: Target, k: Key, x: Value, readonly: bool, fuel: nat) returns (o: Outcome)
      modifies this
      ensures Step(St(), o) == Reactivity.Write(variant, old(St()), t, k, x, readonly, fuel)
      decreases fuel, 6
    {
      if variant.handler == ClassifyWrite && readonly {
        return Done;
      }
      var target := ObjectOf(St(), t);
      var oldVal := Prop(target, k);
      var kind := if variant.handler == ClassifyWrite then Classify(target, k) else SetOp;
      objects := objects[t := SetProperty(target, k, x)];
      if variant.handler == AlwaysTrigger || HasChanged(oldVal, x) {
        o := Trigger(t, k, kind, x, fuel);
      } else {
        o := Done;
      }
    }

    /** `trigger(target, key, type, newVal)`. */
    method Trigger(t: Target, k: Key, kind: TriggerType, newVal: Value, fuel: nat) returns (o: Outcome)
      modifies this
      ensures Step(St(), o) == Reactivity.Trigger(variant, old(St()), t, k, kind, newVal, fuel)
      decreases fuel, 5
    {
      var collected := Collect(t, k, kind, newVal);
      match collected
      case Failure(msg) =>
        o := Thrown(msg);
      case Success(list) =>
        if variant.liveIteration {
          o := LiveRun(t, k, fuel);
        } else {
          o := Dispatch(list, fuel);
        }
    }

    /** `effectsToRun.forEach(...)`. */
    method Dispatch(list: seq<EffectId>, fuel: nat) returns (o: Outcome)
      modifies this
      ensures Step(St(), o) == Reactivity.Dispatch(variant, old(St()), list, fuel)
      decreases fuel, 4
    {
      var i := 0;
      while i < |list|
        invariant 0 <= i <= |list|
        invariant Reactivity.Dispatch(variant, St(), list[i..], fuel) == Reactivity.Dispatch(variant, old(St()), list, fuel)
      {
        assert list[i..][1..] == list[i + 1..];
        o := DispatchOne(list[i], fuel);
        if o.Thrown? {
          return;
        }
        i := i + 1;
      }
      o := Done;
    }

    /** `effects.forEach(fn => fn())` over the live Set. */
    method LiveRun(t: Target, k: Key, fuel: nat) returns (o: Outcome)
      modifies this
      ensures Step(St(), o) == Reactivity.LiveRun(variant, old(St()), t, k, 0, fuel)
      decreases fuel, 4
    {
      var i: nat := 0;
      var f: nat := fuel;
      while f > 0 && i < |Subscribers(bucket, t, k)|
        invariant f <= fuel
        invariant Reactivity.LiveRun(variant, St(), t, k, i, f) == Reactivity.LiveRun(variant, old(St()), t, k, 0, fuel)
        decreases f
      {
        var r := RunEffect(Subscribers(bucket, t, k)[i], f);
        if r.Failure? {
          return Thrown(r.reason);
        }
        i := i + 1;
        f := f - 1;
      }
      o := Done;
    }

    /** One iteration of the dispatch loop: the scheduler if there is one, else a direct run. */
    method DispatchOne(e: EffectId, fuel: nat) returns (o: Outcome)
      modifies this
      ensures Step(St(), o) == Reactivity.DispatchOne(variant, old(St()), e, fuel)
      decreases fuel, 3
    {
      if !variant.schedulers || e !in effects {
        var r := RunEffect(e, fuel);
        return OutcomeOf(r);
      }
      match effects[e].options
      case None =>
        o := Thrown(NoOptionsError);
      case Some(opts) =>
        match opts.scheduler
        case NoScheduler =>
          var r := RunEffect(e, fuel);
          o := OutcomeOf(r);
        case QueueScheduler =>
          jobQueue := SetAdd(jobQueue, e);
          FlushJob();
          o := Done;
        case ComputedScheduler(c) =>
          if c in computeds {
            computeds := computeds[c := computeds[c].(dirty := true)];
          }
          if fuel == 0 {
            return Done;
          }
          o := Trigger(Cell(c), ValueKey, SetOp, Undefined, fuel - 1);
        case WatchScheduler(w) =>
          if w !in watchers {
            return Done;
          }
          if watchers[w].post {
            microtasks := microtasks + [PostJob(w)];
            return Done;
          }
          o := Job(w, fuel);
    }

    /** The `job` closure of watcher w. */
    method Job(w: nat, fuel: nat) returns (o: Outcome)
      modifies this
      ensures Step(St(), o) == Reactivity.Job(variant, old(St()), w, fuel)
      decreases fuel, 2
    {
      if w !in watchers {
        return Done;
      }
      var rec := watchers[w];
      var r := RunEffect(rec.effect, fuel);
      if r.Failure? {
        return Thrown(r.reason);
      }
      var newValue := r.value;
      var wr := if w in watchers then watchers[w] else rec;
      if wr.cleanup.Some? {
        log := log + [Invalidated(wr.cleanup.value)];
      }
      var call := |log|;
      log := log + [Called(w, newValue, wr.oldValue)];
      watchers := watchers[w := wr.(newValue := newValue, oldValue := newValue,
                                    cleanup := if wr.registers then Some(call) else wr.cleanup)];
      o := Done;
    }

    /** The `value` getter of computed c. */
    method ReadComputed(c: nat, fuel: nat) returns (r: Result<Value>)
      modifies this
      ensures Run(St(), r) == Reactivity.ReadComputed(variant, old(St()), c, fuel)
      decreases fuel, 2
    {
      if c !in computeds {
        return Success(Undefined);
      }
      var cr := computeds[c];
      if cr.dirty {
        r := RunEffect(cr.effect, fuel);
        if r.Failure? {
          return;
        }
        computeds := computeds[c := ComputedRec(cr.effect, r.value, false)];
      } else {
        r := Success(cr.value);
      }
      Track(Cell(c), ValueKey);
    }

    /** `effect(fn, options)`. */
    method Effect(body: Expr, opts: Option<Options>, fuel: nat) returns (e: EffectId, o: Outcome)
      modifies this
      ensures Created(St(), e, o) == Reactivity.Effect(variant, old(St()), body, opts, fuel)
      decreases fuel, 1
    {
      e := nextId;
      nextId := nextId + 1;
      effects := effects[e := EffectRec(body, opts)];
      deps := deps[e := []];
      if !variant.wrapper {
        active := Some(e);
      }
      assert St() == Register(variant, old(St()), body, opts);
      if RunsAtCreation(variant, opts) {
        var r := RunEffect(e, fuel);
        o := OutcomeOf(r);
      } else {
        o := Done;
      }
    }

    /** `effectFn()`. */
    method RunEffect(e: EffectId, fuel: nat) returns (r: Result<Value>)
      modifies this
      ensures Run(St(), r) == Reactivity.RunEffect(variant, old(St()), e, fuel)
      decreases fuel, 0
    {
      if fuel == 0 || e !in effects {
        return Success(Undefined);
      }
      var body := effects[e].body;
      Enter(e);
      var res := Eval(body, fuel - 1);
      if res.Failure? {
        return res;
      }
      Exit();
      log := log + [Ran(e, res.value)];
      r := Success(if variant.lazyAndResult then res.value else Undefined);
    }

    /** `traverse(value, seen)`. */
    method Traverse(x: Value, seen: set<Target>, tracked: bool) returns (value: Value, seen': set<Target>)
      modifies this
      ensures Walked(St(), value, seen') == Reactivity.Traverse(variant, old(St()), x, seen, tracked)
      decreases |objects.Keys - seen|, 0
    {
      if !x.Ref? || x.target in seen {
        return Undefined, seen;
      }
      var t := x.target;
      if t !in objects {
        return x, seen + {t};
      }
      SubsetCard(objects.Keys - (seen + {t}), objects.Keys - seen);
      seen' := TraverseKeys(t, objects[t].keys, seen + {t}, tracked);
      value := x;
    }

    /** The `for (const k in value) traverse(value[k], seen)` loop. */
    method TraverseKeys(t: Target, keys: seq<Key>, seen: set<Target>, tracked: bool) returns (seen': set<Target>)
      modifies this
      ensures Walked(St(), Undefined, seen') == Reactivity.TraverseKeys(variant, old(St()), t, keys, seen, tracked)
      decreases |objects.Keys - seen|, 2
    {
      ghost var objs := objects;
      seen' := seen;
      var i := 0;
      while i < |keys|
        invariant 0 <= i <= |keys|
        invariant objects == objs && seen <= seen'
        invariant Reactivity.TraverseKeys(variant, St(), t, keys[i..], seen', tracked) ==
                  Reactivity.TraverseKeys(variant, old(St()), t, keys, seen, tracked)
      {
        assert keys[i..][1..] == keys[i + 1..];
        TraverseKeysStep(variant, St(), t, keys[i..], seen', tracked);
        SubsetCard(objects.Keys - seen', objects.Keys - seen);
        seen' := TraverseKey(t, keys[i], seen', tracked);
        i := i + 1;
      }
    }

    /** One turn of that loop: `track(value, k)`, then `traverse(value[k], seen)`. */
    method TraverseKey(t: Target, k: Key, seen: set<Target>, tracked: bool) returns (seen': set<Target>)
      modifies this
      ensures var s1 := if tracked then Reactivity.Track(variant, old(St()), t, k) else old(St());
        Walked(St(), Undefined, seen') ==
          var w := Reactivity.Traverse(variant, s1, Read(s1, t, k), seen, tracked && variant.deepReads);
          Walked(w.state, Undefined, w.seen)
      decreases |objects.Keys - seen|, 1
    {
      if tracked {
        Track(t, k);
      }
      var _, seen2 := Traverse(Read(St(), t, k), seen, tracked && variant.deepReads);
      seen' := seen2;
    }

    /** `flushJob()`. */
    method FlushJob()
      modifies this
      ensures St() == Reactivity.FlushJob(old(St()))
    {
      if isFlushing {
        return;
      }
      isFlushing := true;
      microtasks := microtasks + [FlushJobs];
    }

    /** `jobQueue.forEach(job => job())`. */
    method RunJobs(fuel: nat) returns (o: Outcome)
      modifies this
      ensures Step(St(), o) == Reactivity.RunJobs(variant, old(St()), 0, fuel)
    {
      var i: nat := 0;
      var f: nat := fuel;
      while f > 0 && i < |jobQueue|
        invariant Reactivity.RunJobs(variant, St(), i, f) == Reactivity.RunJobs(variant, old(St()), 0, fuel)
        decreases f
      {
        var r := RunEffect(jobQueue[i], f);
        if r.Failure? {
          return Thrown(r.reason);
        }
        i := i + 1;
        f := f - 1;
      }
      o := Done;
    }

    /** Run the oldest pending microtask. */
    method Microtask(fuel: nat) returns (o: Outcome)
      modifies this
      ensures Step(St(), o) == Reactivity.Microtask(variant, old(St()), fuel)
    {
      if microtasks == [] {
        return Done;
      }
      var task := microtasks[0];
      microtasks := microtasks[1..];
      match task
      case FlushJobs =>
        o := RunJobs(fuel);
        microtasks := microtasks + [ClearFlushing];
      case ClearFlushing =>
        isFlushing := false;
        o := Done;
      case PostJob(w) =>
        o := Job(w, fuel);
    }

    /** `computed(getter)`. */
    method Computed(getter: Expr, fuel: nat) returns (c: nat, o: Outcome)
      modifies this
      ensures Created(St(), c, o) == Reactivity.Computed(variant, old(St()), getter, fuel)
    {
      c := nextId;
      ghost var s0 := St();
      nextId := nextId + 1;
      var e;
      e, o := Effect(getter, Some(Options(true, ComputedScheduler(c))), fuel);
      ComputedUnfold(variant, s0, getter, fuel, Created(St(), e, o));
      computeds := computeds[c := ComputedRec(e, Undefined, true)];
    }

    /** `watch(source, cb, options)`. */
    method Watch(src: Source, opts: WatchOptions, registers: bool, fuel: nat) returns (w: nat, o: Outcome)
      modifies this
      ensures Created(St(), w, o) == Reactivity.Watch(variant, old(St()), src, opts, registers, fuel)
    {
      w := nextId;
      ghost var s0 := St();
      nextId := nextId + 1;
      var e;
      e, o := Effect(WatchGetter(src), Some(Options(true, WatchScheduler(w))), fuel);
      watchers := watchers[w := WatchRec(e, Undefined, Undefined, None, opts.post, registers)];
      assert Created(St(), w, o) == Reactivity.WatchSetUp(variant, s0, src, opts, registers, fuel);
      if opts.immediate {
        o := Job(w, fuel);
      } else {
        o := WatchFirstRun(w, fuel);
      }
    }

    /** `oldValue = effectFn()`, the first getter run of watcher w. */
    method WatchFirstRun(w: nat, fuel: nat) returns (o: Outcome)
      requires w in watchers
      modifies this
      ensures Created(St(), w, o) == Reactivity.WatchFirstRun(variant, old(St()), w, fuel)
    {
      var rec := watchers[w];
      var r := RunEffect(rec.effect, fuel);
      if r.Failure? {
        return Thrown(r.reason);
      }
      var wr := if w in watchers then watchers[w] else rec;
      watchers := watchers[w := wr.(oldValue := r.value)];
      o := Done;
    }
  }

  /** `computed` is the effect registration followed by the record of the computed. */
  lemma ComputedUnfold(v: Variant, s: State, getter: Expr, fuel: nat, made: Created)
    requires made == Reactivity.Effect(v, s.(nextId := s.nextId + 1), getter,
                                       Some(Options(true, ComputedScheduler(s.nextId))), fuel)
    ensures Reactivity.Computed(v, s, getter, fuel) ==
            Created(made.state.(computeds := made.state.computeds[s.nextId := ComputedRec(made.id, Undefined, true)]),
                    s.nextId, made.outcome)
  {
  }
}
