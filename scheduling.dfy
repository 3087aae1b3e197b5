/**
 * What the engine promises once writes, schedulers and the job queue are
 * involved: the set handler's decision to trigger, the order of dispatch, the
 * batched job queue, the cache of a computed value and the job of a watcher.
 * The effects run here have getters whose value is known in advance: a
 * read-only body, or the `traverse` of an object.
 */
module Scheduling {
  import opened Values
  import opened Deps
  import opened Reactivity
  import opened Invariant
  import opened Properties

  /** A getter whose value does not depend on other effects: reads only, or a traverse. */
  predicate Plain(x: Expr)
  {
    ReadOnly(x) || x.Walk?
  }

  /** The value of a plain getter: a traverse returns the object it was given. */
  function PlainValue(objs: map<Target, JsObject>, x: Expr): Value
    requires Plain(x)
  {
    if x.Walk? then Ref(x.root) else ValueOf(objs, x)
  }

  /** Every listed effect exists and has a plain getter. */
  predicate PlainAll(effects: map<EffectId, EffectRec>, list: seq<EffectId>)
  {
    forall i | 0 <= i < |list| :: list[i] in effects && Plain(effects[list[i]].body)
  }

  /** The runs a list of effects logs, in list order, with their values over `objs`. */
  function RunsOf(objs: map<Target, JsObject>, effects: map<EffectId, EffectRec>, list: seq<EffectId>): (r: seq<Event>)
    requires PlainAll(effects, list)
    ensures |r| == |list|
  {
    if list == [] then [] else [Ran(list[0], PlainValue(objs, effects[list[0]].body))] + RunsOf(objs, effects, list[1..])
  }

  /** The raw objects after `Reflect.set(target, key, x)`. */
  function Stored(s: State, t: Target, k: Key, x: Value): (r: State)
    ensures Read(r, t, k) == x
    ensures r == s.(objects := r.objects)
  {
    s.(objects := s.objects[t := SetProperty(ObjectOf(s, t), k, x)])
  }

  /**
   * A run of an effect with a plain getter: it logs the getter's value over the
   * current objects and changes only the store, the stack and the log.
   */
  lemma RunPlain(v: Variant, s: State, e: EffectId, fuel: nat)
    requires Inv(v, s) && fuel > 0 && e in s.effects && Plain(s.effects[e].body)
    ensures var r := RunEffect(v, s, e, fuel);
      var val := PlainValue(s.objects, s.effects[e].body);
      && r.result == Success(if v.lazyAndResult then val else Undefined)
      && r.state.log == s.log + [Ran(e, val)]
      && r.state == s.(bucket := r.state.bucket, deps := r.state.deps, stack := r.state.stack,
                       active := r.state.active, log := r.state.log)
      && Inv(v, r.state)
      && (v.stack ==> SameStack(s, r.state))
  {
    RunEffectInv(v, s, e, fuel);
    if ReadOnly(s.effects[e].body) {
      RunReadOnly(v, s, e, fuel);
    } else {
      var t := s.effects[e].body.root;
      var s1 := Enter(v, s, e);
      var w := Traverse(v, s1, Ref(t), {}, true);
      assert Eval(v, s1, s.effects[e].body, fuel - 1) == Run(w.state, Success(Ref(t)));
    }
  }

  // ---------------------------------------------------------------------------
  // The set handler

  /** watch.js: the set handler triggers on every write, an unchanged value included. */
  lemma WriteAlwaysTriggers(v: Variant, s: State, t: Target, k: Key, x: Value, readonly: bool, fuel: nat)
    requires v.handler == AlwaysTrigger
    ensures Write(v, s, t, k, x, readonly, fuel) == Trigger(v, Stored(s, t, k, x), t, k, SetOp, x, fuel)
  {
  }

  /**
   * with-reflect.js and array.js: a write of the value already stored (NaN over
   * NaN included) stores it and triggers nothing; through a readonly proxy
   * nothing changes at all.
   */
  lemma WriteUnchanged(v: Variant, s: State, t: Target, k: Key, x: Value, readonly: bool, fuel: nat)
    requires v.handler != AlwaysTrigger && Read(s, t, k) == x
    ensures var r := Write(v, s, t, k, x, readonly, fuel);
      && r.outcome == Done
      && r.state == (if v.handler == ClassifyWrite && readonly then s else Stored(s, t, k, x))
  {
  }

  /**
   * A changed value is stored and triggered, as SET or ADD by the array.js
   * classification and as SET by with-reflect.js.
   */
  lemma WriteChanged(v: Variant, s: State, t: Target, k: Key, x: Value, fuel: nat)
    requires v.handler != AlwaysTrigger && Read(s, t, k) != x
    ensures Write(v, s, t, k, x, false, fuel) ==
            Trigger(v, Stored(s, t, k, x), t, k,
                    if v.handler == ClassifyWrite then Classify(ObjectOf(s, t), k) else SetOp, x, fuel)
  {
  }

  /**
   * array.js' closing demonstration: setting `length` of a one-element array
   * to 0 is a change, classified ADD (`Number('length')` is NaN), and the
   * effects trigger collects include, once, every effect that read index 0.
   */
  lemma TruncationCollectsIndex(v: Variant, s: State, t: Target, e: EffectId, fuel: nat)
    requires WellFormed(s.bucket) && v.fanOut && v.handler == ClassifyWrite
    requires ObjectOf(s, t).isArray && Read(s, t, LengthKey) == Num(1)
    requires e in Subscribers(s.bucket, t, Index(0)) && Exclusion(v, s) != Some(e)
    ensures var s1 := Stored(s, t, LengthKey, Num(0));
      var c := Collect(v, s1, t, LengthKey, AddOp, Num(0));
      && Write(v, s, t, LengthKey, Num(0), false, fuel) == Trigger(v, s1, t, LengthKey, AddOp, Num(0), fuel)
      && (v.keyGuard ==> c.Success? && e in c.value && NoDup(c.value))
  {
    WriteChanged(v, s, t, LengthKey, Num(0), fuel);
    var s1 := Stored(s, t, LengthKey, Num(0));
    assert Classify(ObjectOf(s, t), LengthKey) == AddOp;
    if v.keyGuard {
      LengthFanOut(v, s1, t, e);
    }
  }

  /** A `length` write of 0 on an array collects every effect that read an index, once. */
  lemma LengthFanOut(v: Variant, s: State, t: Target, e: EffectId)
    requires WellFormed(s.bucket) && v.fanOut && v.keyGuard && ObjectOf(s, t).isArray
    requires e in Subscribers(s.bucket, t, Index(0)) && Exclusion(v, s) != Some(e)
    ensures var c := Collect(v, s, t, LengthKey, AddOp, Num(0));
      c.Success? && e in c.value && NoDup(c.value)
  {
    assert t in s.bucket;
    assert !CollectThrows(v, s, t, LengthKey);
    CollectSpec(v, s, t, LengthKey, AddOp, Num(0));
    assert KeyAtOrAbove(Index(0), Num(0));
    assert Wanted(v, s, t, LengthKey, AddOp, Num(0), e);
  }

  /** array.js: a write through a readonly proxy neither stores nor triggers. */
  lemma WriteReadonly(v: Variant, s: State, t: Target, k: Key, x: Value, fuel: nat)
    requires v.handler == ClassifyWrite
    ensures Write(v, s, t, k, x, true, fuel) == Step(s, Done)
  {
  }

  /**
   * A write to a key nobody read (step3.js' `notExist`, an unread key of
   * step5.js and prac.js) stores the value and runs nothing, in every variant
   * whose trigger does not throw for it and does not fan out.
   */
  lemma WriteUnread(v: Variant, s: State, t: Target, k: Key, x: Value, readonly: bool, fuel: nat)
    requires !CollectThrows(v, s, t, k) && Subscribers(s.bucket, t, k) == [] && !v.fanOut
    ensures var r := Write(v, s, t, k, x, readonly, fuel);
      && r.outcome == Done
      && r.state == (if v.handler == ClassifyWrite && readonly then s else Stored(s, t, k, x))
  {
    var kind := if v.handler == ClassifyWrite then Classify(ObjectOf(s, t), k) else SetOp;
    TriggerNobody(v, Stored(s, t, k, x), t, k, kind, x, fuel);
  }

  /**
   * prac.js and prac-22_5_*.js: when trigger has no guard for the missing Map
   * or Set, a write that reaches trigger stores the value and then throws.
   */
  lemma WriteThrows(v: Variant, s: State, t: Target, k: Key, x: Value, fuel: nat)
    requires CollectThrows(v, s, t, k)
    requires v.handler == AlwaysTrigger || Read(s, t, k) != x
    ensures var r := Write(v, s, t, k, x, false, fuel);
      r.outcome.Thrown? && r.state == Stored(s, t, k, x)
  {
  }

  // ---------------------------------------------------------------------------
  // Dispatch

  /** In the variants with schedulers, e is an effect without one. */
  ghost predicate Unscheduled(v: Variant, effects: map<EffectId, EffectRec>, e: EffectId)
  {
    v.schedulers ==> e in effects && effects[e].options.Some? && effects[e].options.value.scheduler == NoScheduler
  }

  /** An effect trigger runs directly (it has no scheduler), with a plain getter. */
  ghost predicate Direct(v: Variant, s: State, e: EffectId)
  {
    e in s.effects && Plain(s.effects[e].body) && Unscheduled(v, s.effects, e)
  }

  /** r differs from s at most in the store, the stack and the log. */
  ghost predicate SameData(s: State, r: State)
  {
    r == s.(bucket := r.bucket, deps := r.deps, stack := r.stack, active := r.active, log := r.log)
  }

  /** The first step of a dispatch loop over direct effects. */
  lemma DispatchHead(v: Variant, s: State, list: seq<EffectId>, fuel: nat)
    requires Inv(v, s) && fuel > 0 && list != [] && Direct(v, s, list[0])
    ensures var s1 := RunEffect(v, s, list[0], fuel).state;
      && Dispatch(v, s, list, fuel) == Dispatch(v, s1, list[1..], fuel)
      && Inv(v, s1) && SameData(s, s1)
      && s1.log == s.log + [Ran(list[0], PlainValue(s.objects, s.effects[list[0]].body))]
  {
    RunPlain(v, s, list[0], fuel);
  }

  /** Dispatching a list of direct effects runs each once, in list order. */
  lemma {:induction false} DispatchInOrder(v: Variant, s: State, list: seq<EffectId>, fuel: nat)
    requires Inv(v, s) && fuel > 0 && PlainAll(s.effects, list)
    requires forall i | 0 <= i < |list| :: Unscheduled(v, s.effects, list[i])
    ensures var r := Dispatch(v, s, list, fuel);
      && r.outcome == Done
      && r.state.log == s.log + RunsOf(s.objects, s.effects, list)
      && SameData(s, r.state)
    decreases |list|
  {
    if list != [] {
      var e := list[0];
      DispatchHead(v, s, list, fuel);
      var s1 := RunEffect(v, s, e, fuel).state;
      var rest := list[1..];
      assert forall i | 0 <= i < |rest| :: rest[i] == list[i + 1];
      assert PlainAll(s1.effects, rest);
      DispatchInOrder(v, s1, rest, fuel);
      var tail := RunsOf(s.objects, s.effects, rest);
      assert RunsOf(s.objects, s.effects, list) == [Ran(e, PlainValue(s.objects, s.effects[e].body))] + tail;
    }
  }

  /**
   * A trigger over a copied Set whose collected effects all run directly runs
   * each effect it wants exactly once, in collection order: no duplicates,
   * none left out, and none that it does not want (the active effect, where
   * excluded).
   */
  lemma TriggerRunsEach(v: Variant, s: State, t: Target, k: Key, kind: TriggerType, newVal: Value, fuel: nat)
    requires Inv(v, s) && fuel > 0 && !v.liveIteration && !CollectThrows(v, s, t, k)
    requires forall e :: Wanted(v, s, t, k, kind, newVal, e) ==> Direct(v, s, e)
    ensures var list := Collect(v, s, t, k, kind, newVal).value;
      var r := Trigger(v, s, t, k, kind, newVal, fuel);
      && NoDup(list) && (forall e :: e in list <==> Wanted(v, s, t, k, kind, newVal, e))
      && r.outcome == Done && PlainAll(s.effects, list)
      && r.state.log == s.log + RunsOf(s.objects, s.effects, list)
  {
    CollectSpec(v, s, t, k, kind, newVal);
    var list := Collect(v, s, t, k, kind, newVal).value;
    forall i | 0 <= i < |list| ensures Direct(v, s, list[i]) {
      assert list[i] in list;
    }
    assert PlainAll(s.effects, list);
    DispatchInOrder(v, s, list, fuel);
  }

  // ---------------------------------------------------------------------------
  // The batched job queue of step7-1.js

  /** An effect whose scheduler adds it to the job queue. */
  ghost predicate Queued(v: Variant, s: State, e: EffectId)
  {
    && v.schedulers && e in s.effects
    && s.effects[e].options.Some? && s.effects[e].options.value.scheduler == QueueScheduler
  }

  /**
   * The queue scheduler does not run the effect: it adds it to the job queue
   * Set (one entry however often it is added) and asks for a flush, which is
   * queued only when none is pending.
   */
  lemma QueueDispatch(v: Variant, s: State, e: EffectId, fuel: nat)
    requires Queued(v, s, e)
    ensures var r := DispatchOne(v, s, e, fuel);
      && r.outcome == Done && r.state.log == s.log
      && r.state.jobQueue == SetAdd(s.jobQueue, e)
      && r.state.microtasks == s.microtasks + (if s.isFlushing then [] else [FlushJobs])
      && r.state == s.(jobQueue := r.state.jobQueue, isFlushing := true, microtasks := r.state.microtasks)
  {
  }

  /** `flushJob()` twice is `flushJob()` once. */
  lemma FlushJobTwice(s: State)
    ensures FlushJob(FlushJob(s)) == FlushJob(s)
  {
  }

  /** The jobs from position i on, run in queue order, each seeing the objects as they are. */
  lemma {:induction false} RunJobsInOrder(v: Variant, s: State, i: nat, fuel: nat)
    requires Inv(v, s) && i <= |s.jobQueue| && fuel >= |s.jobQueue| - i
    requires PlainAll(s.effects, s.jobQueue[i..])
    ensures var r := RunJobs(v, s, i, fuel);
      && r.outcome == Done
      && r.state.log == s.log + RunsOf(s.objects, s.effects, s.jobQueue[i..])
      && r.state == s.(bucket := r.state.bucket, deps := r.state.deps, stack := r.state.stack,
                       active := r.state.active, log := r.state.log)
    decreases |s.jobQueue| - i
  {
    if i < |s.jobQueue| {
      var rest := s.jobQueue[i..];
      var e := s.jobQueue[i];
      assert rest[0] == e;
      RunJobsHead(v, s, i, fuel);
      var a := RunEffect(v, s, e, fuel);
      assert s.jobQueue[i + 1..] == rest[1..];
      assert PlainAll(a.state.effects, a.state.jobQueue[i + 1..]) by {
        forall j | 0 <= j < |rest[1..]| ensures rest[1..][j] in s.effects && Plain(s.effects[rest[1..][j]].body) {
          assert rest[1..][j] == rest[j + 1];
        }
      }
      RunJobsInOrder(v, a.state, i + 1, fuel - 1);
      var tail := RunsOf(s.objects, s.effects, rest[1..]);
      assert RunJobs(v, a.state, i + 1, fuel - 1).state.log == a.state.log + tail;
      assert RunsOf(s.objects, s.effects, rest) == [Ran(e, PlainValue(s.objects, s.effects[e].body))] + tail;
    }
  }

  /** The first job of a flush over plain effects: one run, then the flush goes on from the next job. */
  lemma RunJobsHead(v: Variant, s: State, i: nat, fuel: nat)
    requires Inv(v, s) && i < |s.jobQueue| && fuel > 0
    requires s.jobQueue[i] in s.effects && Plain(s.effects[s.jobQueue[i]].body)
    ensures var e := s.jobQueue[i];
      var a := RunEffect(v, s, e, fuel);
      && RunJobs(v, s, i, fuel) == RunJobs(v, a.state, i + 1, fuel - 1)
      && Inv(v, a.state)
      && a.state == s.(bucket := a.state.bucket, deps := a.state.deps, stack := a.state.stack,
                       active := a.state.active, log := a.state.log)
      && a.state.log == s.log + [Ran(e, PlainValue(s.objects, s.effects[e].body))]
  {
    RunPlain(v, s, s.jobQueue[i], fuel);
  }

  /**
   * The flush microtask runs every queued job once, in insertion order, with
   * the values the objects hold when it runs, leaves the queue as it was (it
   * is never emptied), and queues the reset of `isFlushing`.
   */
  lemma FlushRunsQueue(v: Variant, s: State, fuel: nat)
    requires Inv(v, s) && s.microtasks != [] && s.microtasks[0] == FlushJobs && fuel >= |s.jobQueue|
    requires PlainAll(s.effects, s.jobQueue)
    ensures var r := Microtask(v, s, fuel);
      && r.outcome == Done && Inv(v, r.state)
      && r.state.log == s.log + RunsOf(s.objects, s.effects, s.jobQueue)
      && r.state.jobQueue == s.jobQueue && r.state.isFlushing == s.isFlushing
      && r.state.microtasks == s.microtasks[1..] + [ClearFlushing]
  {
    var s1 := s.(microtasks := s.microtasks[1..]);
    assert Inv(v, s1);
    assert s1.jobQueue[0..] == s.jobQueue;
    RunJobsInOrder(v, s1, 0, fuel);
    RunJobsInv(v, s1, 0, fuel);
    var st := RunJobs(v, s1, 0, fuel);
    assert Microtask(v, s, fuel) == Step(st.state.(microtasks := st.state.microtasks + [ClearFlushing]), st.outcome);
    assert Inv(v, st.state.(microtasks := st.state.microtasks + [ClearFlushing]));
  }

  /** The `.finally` of a flush clears `isFlushing`, so the next scheduled job asks for a new flush. */
  lemma FlushEnds(v: Variant, s: State, fuel: nat)
    requires s.microtasks != [] && s.microtasks[0] == ClearFlushing
    ensures Microtask(v, s, fuel) == Step(s.(microtasks := s.microtasks[1..], isFlushing := false), Done)
  {
  }

  /**
   * step7-1.js: two writes that each schedule the same queued effect leave one
   * job, and the single flush that follows runs it once with the objects as
   * the second write left them.
   */
  lemma TwoWritesOneRun(v: Variant, s: State, e: EffectId, t: Target, k: Key, x1: Value, x2: Value, fuel: nat)
    requires Inv(v, s) && Queued(v, s, e) && Plain(s.effects[e].body) && fuel > 0
    requires !s.isFlushing && s.jobQueue == [] && s.microtasks == []
    ensures var s1 := DispatchOne(v, Stored(s, t, k, x1), e, fuel).state;
            var s2 := DispatchOne(v, Stored(s1, t, k, x2), e, fuel).state;
            var r := Microtask(v, s2, fuel);
      && Read(s2, t, k) == x2
      && s2.jobQueue == [e] && s2.log == s.log
      && e in s2.effects && Plain(s2.effects[e].body)
      && r.state.log == s.log + [Ran(e, PlainValue(s2.objects, s2.effects[e].body))]
      && r.state.microtasks == [ClearFlushing]
  {
    var a := Stored(s, t, k, x1);
    QueueDispatch(v, a, e, fuel);
    var s1 := DispatchOne(v, a, e, fuel).state;
    var b := Stored(s1, t, k, x2);
    QueueDispatch(v, b, e, fuel);
    var s2 := DispatchOne(v, b, e, fuel).state;
    assert s2.jobQueue == [e];
    assert Inv(v, s2);
    FlushRunsQueue(v, s2, fuel);
    assert RunsOf(s2.objects, s2.effects, [e]) == [Ran(e, PlainValue(s2.objects, s2.effects[e].body))];
  }

  // ---------------------------------------------------------------------------
  // computed.js

  /** A read while the cache is clean returns the cached value, runs nothing and tracks `.value`. */
  lemma ComputedHit(v: Variant, s: State, c: nat, fuel: nat)
    requires c in s.computeds && !s.computeds[c].dirty
    ensures var r := ReadComputed(v, s, c, fuel);
      && r.result == Success(s.computeds[c].value)
      && r.state == Track(v, s, Cell(c), ValueKey)
  {
  }

  /**
   * A read while dirty runs the getter once, caches its value, clears the
   * flag, and tracks `.value` for the reader (the caller's effect is active
   * again after the getter's run).
   */
  lemma ComputedMiss(v: Variant, s: State, c: nat, fuel: nat)
    requires Inv(v, s) && v.lazyAndResult && fuel > 0 && c in s.computeds && s.computeds[c].dirty
    requires s.computeds[c].effect in s.effects && Plain(s.effects[s.computeds[c].effect].body)
    ensures var cr := s.computeds[c];
      var val := PlainValue(s.objects, s.effects[cr.effect].body);
      var r := ReadComputed(v, s, c, fuel);
      && r.result == Success(val)
      && r.state.computeds == s.computeds[c := ComputedRec(cr.effect, val, false)]
      && r.state.log == s.log + [Ran(cr.effect, val)]
      && r.state.objects == s.objects && r.state.effects == s.effects && r.state.watchers == s.watchers
      && Inv(v, r.state)
      && (v.stack && s.active.Some? ==> s.active.value in Subscribers(r.state.bucket, Cell(c), ValueKey))
  {
    RunPlain(v, s, s.computeds[c].effect, fuel);
    ReadComputedInv(v, s, c, fuel);
  }

  /** Two reads in a row with the cache dirty run the getter once and return the same value. */
  lemma ComputedReadTwice(v: Variant, s: State, c: nat, fuel: nat)
    requires Inv(v, s) && v.lazyAndResult && fuel > 0 && c in s.computeds && s.computeds[c].dirty
    requires s.computeds[c].effect in s.effects && Plain(s.effects[s.computeds[c].effect].body)
    ensures var cr := s.computeds[c];
      var r1 := ReadComputed(v, s, c, fuel);
      var r2 := ReadComputed(v, r1.state, c, fuel);
      && r2.result == r1.result
      && r2.state.log == s.log + [Ran(cr.effect, PlainValue(s.objects, s.effects[cr.effect].body))]
  {
    ComputedMiss(v, s, c, fuel);
    ComputedHit(v, ReadComputed(v, s, c, fuel).state, c, fuel);
  }

  /** An effect whose scheduler is the one of computed c. */
  ghost predicate ComputedEffect(v: Variant, s: State, e: EffectId, c: nat)
  {
    && v.schedulers && e in s.effects && c in s.computeds
    && s.effects[e].options.Some? && s.effects[e].options.value.scheduler == ComputedScheduler(c)
  }

  /**
   * When nobody reads `.value`, the scheduler of a computed only marks it
   * dirty: the getter does not run and the cached value stays.
   */
  lemma ComputedSchedulerOnlyMarks(v: Variant, s: State, e: EffectId, c: nat, fuel: nat)
    requires ComputedEffect(v, s, e, c) && Subscribers(s.bucket, Cell(c), ValueKey) == []
    requires !CollectThrows(v, s, Cell(c), ValueKey) && !(v.fanOut && ObjectOf(s, Cell(c)).isArray)
    ensures var r := DispatchOne(v, s, e, fuel);
      && r.outcome == Done
      && r.state == s.(computeds := s.computeds[c := s.computeds[c].(dirty := true)])
  {
    if fuel > 0 {
      TriggerNobody(v, MarkDirty(s, c), Cell(c), ValueKey, SetOp, Undefined, fuel - 1);
    }
  }

  /**
   * computed.js' demonstration: an effect e' whose body reads `sumRes.value`
   * and is the one subscriber of it re-runs when the scheduler fires; its read
   * finds the cache dirty, so the getter runs once and then e' logs the new
   * value.
   */
  lemma ComputedNotifiesReader(v: Variant, s: State, e: EffectId, c: nat, e': EffectId, fuel: nat)
    requires Inv(v, s) && v.lazyAndResult && !v.liveIteration && fuel > 2
    requires ComputedEffect(v, s, e, c) && Subscribers(s.bucket, Cell(c), ValueKey) == [e']
    requires !(v.fanOut && ObjectOf(s, Cell(c)).isArray) && Exclusion(v, s) != Some(e')
    requires e' in s.effects && s.effects[e'].body == ComputedValue(c)
    requires s.effects[e'].options.Some? && s.effects[e'].options.value.scheduler == NoScheduler
    requires s.computeds[c].effect in s.effects && Plain(s.effects[s.computeds[c].effect].body)
    ensures var g := s.computeds[c].effect;
      var val := PlainValue(s.objects, s.effects[g].body);
      var r := DispatchOne(v, s, e, fuel);
      && r.outcome == Done
      && r.state.log == s.log + [Ran(g, val), Ran(e', val)]
      && r.state.computeds == s.computeds[c := ComputedRec(g, val, false)]
  {
    var s1 := MarkDirty(s, c);
    assert Inv(v, s1);
    assert HasSet(s1.bucket, Cell(c), ValueKey);
    assert [e'][1..] == [];
    assert AddAll([], [e'], Exclusion(v, s1)) == [e'];
    assert ValueKey != LengthKey;
    assert Collect(v, s1, Cell(c), ValueKey, SetOp, Undefined) == Success([e']);
    assert DispatchOne(v, s, e, fuel) == Dispatch(v, s1, [e'], fuel - 1);
    ReaderRerun(v, s1, c, e', fuel - 1);
  }

  /** The run of e', whose body reads `.value` of a dirty computed c. */
  lemma ReaderRerun(v: Variant, s: State, c: nat, e': EffectId, fuel: nat)
    requires Inv(v, s) && v.lazyAndResult && fuel > 1 && e' in s.effects && s.effects[e'].body == ComputedValue(c)
    requires v.schedulers ==> s.effects[e'].options.Some? && s.effects[e'].options.value.scheduler == NoScheduler
    requires c in s.computeds && s.computeds[c].dirty
    requires s.computeds[c].effect in s.effects && Plain(s.effects[s.computeds[c].effect].body)
    ensures var g := s.computeds[c].effect;
      var val := PlainValue(s.objects, s.effects[g].body);
      var r := Dispatch(v, s, [e'], fuel);
      && r.outcome == Done
      && r.state.log == s.log + [Ran(g, val), Ran(e', val)]
      && r.state.computeds == s.computeds[c := ComputedRec(g, val, false)]
  {
    ReaderRunEffect(v, s, c, e', fuel);
    assert DispatchOne(v, s, e', fuel).state == RunEffect(v, s, e', fuel).state;
    DispatchSingle(v, s, e', fuel);
  }

  /** The effect run inside ReaderRerun: the getter runs first, then e' logs the value it read. */
  lemma ReaderRunEffect(v: Variant, s: State, c: nat, e': EffectId, fuel: nat)
    requires Inv(v, s) && v.lazyAndResult && fuel > 1 && e' in s.effects && s.effects[e'].body == ComputedValue(c)
    requires c in s.computeds && s.computeds[c].dirty
    requires s.computeds[c].effect in s.effects && Plain(s.effects[s.computeds[c].effect].body)
    ensures var g := s.computeds[c].effect;
      var val := PlainValue(s.objects, s.effects[g].body);
      var a := RunEffect(v, s, e', fuel);
      && a.result.Success?
      && a.state.log == s.log + [Ran(g, val), Ran(e', val)]
      && a.state.computeds == s.computeds[c := ComputedRec(g, val, false)]
  {
    assert e' < s.nextId;
    var s1 := Enter(v, s, e');
    EnterInv(v, s, e');
    ComputedMiss(v, s1, c, fuel - 1);
    assert Eval(v, s1, ComputedValue(c), fuel - 1) == ReadComputed(v, s1, c, fuel - 1);
  }

  /** A one-element dispatch is the one step, and ends `Done` unless it threw. */
  lemma DispatchSingle(v: Variant, s: State, e: EffectId, fuel: nat)
    ensures var r1 := DispatchOne(v, s, e, fuel);
      Dispatch(v, s, [e], fuel) == if r1.outcome.Thrown? then r1 else Step(r1.state, Done)
  {
    assert [e][1..] == [];
  }

  // ---------------------------------------------------------------------------
  // watch.js and with-reflect.js

  /**
   * The job of watcher w: the getter re-runs first, then the invalidation
   * callback registered by the previous call (if any) is called, then
   * `cb(newValue, oldValue)`; afterwards `oldValue` is the new value, and when
   * `cb` calls `onInvalidate` the stored callback is replaced by the one this
   * call registered (the last event of the log).
   */
  lemma JobPlain(v: Variant, s: State, w: nat, fuel: nat)
    requires Inv(v, s) && v.lazyAndResult && fuel > 0 && w in s.watchers
    requires s.watchers[w].effect in s.effects && Plain(s.effects[s.watchers[w].effect].body)
    ensures var wr := s.watchers[w];
      var nv := PlainValue(s.objects, s.effects[wr.effect].body);
      var inval := if wr.cleanup.Some? then [Invalidated(wr.cleanup.value)] else [];
      var r := Job(v, s, w, fuel);
      && r.outcome == Done && Inv(v, r.state)
      && r.state.log == s.log + [Ran(wr.effect, nv)] + inval + [Called(w, nv, wr.oldValue)]
      && r.state.watchers == s.watchers[w := wr.(newValue := nv, oldValue := nv,
                                                 cleanup := if wr.registers then Some(|r.state.log| - 1) else wr.cleanup)]
      && r.state.objects == s.objects && r.state.effects == s.effects
  {
    var wr := s.watchers[w];
    RunPlain(v, s, wr.effect, fuel);
    JobInv(v, s, w, fuel);
    var a := RunEffect(v, s, wr.effect, fuel);
    assert a.state.watchers == s.watchers && a.result.Success?;
  }

  /**
   * A watched reactive object: `traverse` hands back the object itself, so
   * once `oldValue` is that reference, every job calls `cb` with the same
   * reference as new and old value, and `oldValue` stays that reference.
   */
  lemma ObjectSourceSameValue(v: Variant, s: State, w: nat, t: Target, fuel: nat)
    requires Inv(v, s) && v.lazyAndResult && fuel > 0 && w in s.watchers
    requires s.watchers[w].effect in s.effects && s.effects[s.watchers[w].effect].body == Walk(t)
    requires s.watchers[w].oldValue == Ref(t)
    ensures var r := Job(v, s, w, fuel);
      && r.outcome == Done && |r.state.log| > 0
      && r.state.log[|r.state.log| - 1] == Called(w, Ref(t), Ref(t))
      && w in r.state.watchers && r.state.watchers[w].oldValue == Ref(t)
      && r.state.watchers[w].effect == s.watchers[w].effect && r.state.effects == s.effects
  {
    JobPlain(v, s, w, fuel);
  }

  /** The set-up half of `watch` creates the lazy effect and stores the watcher's record, running nothing. */
  lemma WatchSetUpFacts(v: Variant, s: State, src: Source, opts: WatchOptions, registers: bool, fuel: nat)
    requires Inv(v, s) && v.lazyAndResult
    ensures var w := s.nextId;
      var r := WatchSetUp(v, s, src, opts, registers, fuel);
      && r.outcome == Done && Inv(v, r.state)
      && r.state.objects == s.objects && r.state.log == s.log
      && r.state.effects == s.effects[w + 1 := EffectRec(WatchGetter(src), Some(Options(true, WatchScheduler(w))))]
      && r.state.watchers == s.watchers[w := WatchRec(w + 1, Undefined, Undefined, None, opts.post, registers)]
  {
    WatchSetUpInv(v, s, src, opts, registers, fuel);
  }

  /**
   * `watch(source, cb, options)` with a plain getter and without `immediate`:
   * only the getter runs at registration, `cb` is not called, and the getter's
   * value becomes `oldValue`. A reactive object source gives the object itself.
   */
  lemma WatchRegister(v: Variant, s: State, src: Source, opts: WatchOptions, registers: bool, fuel: nat)
    requires Inv(v, s) && v.lazyAndResult && fuel > 0 && Plain(WatchGetter(src)) && !opts.immediate
    ensures var r := Watch(v, s, src, opts, registers, fuel);
      var w := s.nextId;
      var val := PlainValue(s.objects, WatchGetter(src));
      && r.outcome == Done
      && r.state.watchers == s.watchers[w := WatchRec(w + 1, val, Undefined, None, opts.post, registers)]
      && r.state.effects == s.effects[w + 1 := EffectRec(WatchGetter(src), Some(Options(true, WatchScheduler(w))))]
      && r.state.log == s.log + [Ran(w + 1, val)]
  {
    WatchSetUpFacts(v, s, src, opts, registers, fuel);
    var reg := WatchSetUp(v, s, src, opts, registers, fuel);
    WatchFirstRunPlain(v, reg.state, s.nextId, fuel);
    assert Watch(v, s, src, opts, registers, fuel) == WatchFirstRun(v, reg.state, s.nextId, fuel);
  }

  /** A run of an effect whose body is `traverse(proxy of t)` subscribes it to every key of t. */
  lemma RunWalkSubscribes(v: Variant, s: State, e: EffectId, t: Target, fuel: nat)
    requires v.wrapper && fuel > 0 && e in s.effects && s.effects[e].body == Walk(t) && t in s.objects
    ensures forall k :: k in s.objects[t].keys ==> e in Subscribers(RunEffect(v, s, e, fuel).state.bucket, t, k)
  {
    RunEffectStore(v, s, e, fuel);
    var s1 := Enter(v, s, e);
    WalkSubscribes(v, s1, t);
    assert Eval(v, s1, Walk(t), fuel - 1).state == Traverse(v, s1, Ref(t), {}, true).state;
  }

  /**
   * `watch(obj, cb)`: whether or not the job runs at once, registration leaves
   * the getter effect in the Set of every key of obj, so a later write to any
   * of them reaches the watcher.
   */
  lemma WatchSubscribes(v: Variant, s: State, t: Target, opts: WatchOptions, registers: bool, fuel: nat)
    requires Inv(v, s) && v.lazyAndResult && v.wrapper && fuel > 0 && t in s.objects
    ensures var r := Watch(v, s, Reactive(t), opts, registers, fuel);
      forall k :: k in s.objects[t].keys ==> s.nextId + 1 in Subscribers(r.state.bucket, t, k)
  {
    WatchSetUpFacts(v, s, Reactive(t), opts, registers, fuel);
    var reg := WatchSetUp(v, s, Reactive(t), opts, registers, fuel);
    var g := s.nextId + 1;
    RunWalkSubscribes(v, reg.state, g, t, fuel);
    var a := RunEffect(v, reg.state, g, fuel);
    if opts.immediate {
      assert Job(v, reg.state, s.nextId, fuel).state.bucket == a.state.bucket;
    } else {
      assert WatchFirstRun(v, reg.state, s.nextId, fuel).state.bucket == a.state.bucket;
    }
  }

  /** `oldValue = effectFn()` with a plain getter: one run of the getter, whose value becomes `oldValue`. */
  lemma WatchFirstRunPlain(v: Variant, s: State, w: nat, fuel: nat)
    requires Inv(v, s) && v.lazyAndResult && fuel > 0 && w in s.watchers
    requires s.watchers[w].effect in s.effects && Plain(s.effects[s.watchers[w].effect].body)
    ensures var g := s.watchers[w].effect;
      var val := PlainValue(s.objects, s.effects[g].body);
      var r := WatchFirstRun(v, s, w, fuel);
      && r.outcome == Done
      && r.state.watchers == s.watchers[w := s.watchers[w].(oldValue := val)]
      && r.state.effects == s.effects
      && r.state.log == s.log + [Ran(g, val)]
  {
    RunPlain(v, s, s.watchers[w].effect, fuel);
  }

  /**
   * `watch(source, cb, { immediate: true })` with a plain getter: the job runs
   * at registration, so `cb` is called once with `undefined` as the old value,
   * and the getter's value becomes `oldValue`.
   */
  lemma WatchImmediate(v: Variant, s: State, src: Source, opts: WatchOptions, registers: bool, fuel: nat)
    requires Inv(v, s) && v.lazyAndResult && fuel > 0 && Plain(WatchGetter(src)) && opts.immediate
    ensures var r := Watch(v, s, src, opts, registers, fuel);
      var w := s.nextId;
      var val := PlainValue(s.objects, WatchGetter(src));
      && r.outcome == Done
      && r.state.watchers == s.watchers[w := WatchRec(w + 1, val, val, if registers then Some(|s.log| + 1) else None,
                                                      opts.post, registers)]
      && r.state.effects == s.effects[w + 1 := EffectRec(WatchGetter(src), Some(Options(true, WatchScheduler(w))))]
      && r.state.log == s.log + [Ran(w + 1, val), Called(w, val, Undefined)]
  {
    WatchSetUpFacts(v, s, src, opts, registers, fuel);
    var reg := WatchSetUp(v, s, src, opts, registers, fuel);
    JobFresh(v, reg.state, s.nextId, fuel);
    var st := Job(v, reg.state, s.nextId, fuel);
    assert Watch(v, s, src, opts, registers, fuel) == Created(st.state, s.nextId, st.outcome);
  }

  /** The job of a watcher that has not run yet: no invalidation callback, and `undefined` as the old value. */
  lemma JobFresh(v: Variant, s: State, w: nat, fuel: nat)
    requires Inv(v, s) && v.lazyAndResult && fuel > 0 && w in s.watchers
    requires s.watchers[w].effect in s.effects && Plain(s.effects[s.watchers[w].effect].body)
    requires s.watchers[w].cleanup == None && s.watchers[w].oldValue == Undefined
    ensures var wr := s.watchers[w];
      var val := PlainValue(s.objects, s.effects[wr.effect].body);
      var r := Job(v, s, w, fuel);
      && r.outcome == Done
      && r.state.watchers == s.watchers[w := wr.(newValue := val, oldValue := val,
                                                 cleanup := if wr.registers then Some(|s.log| + 1) else None)]
      && r.state.effects == s.effects
      && r.state.log == s.log + [Ran(wr.effect, val), Called(w, val, Undefined)]
  {
    JobPlain(v, s, w, fuel);
  }

  /**
   * The watch scheduler: with `flush: 'post'` the job is not run but queued as
   * a microtask, and that microtask is the same job run later; otherwise the
   * job runs at once.
   */
  lemma WatchSchedule(v: Variant, s: State, e: EffectId, w: nat, fuel: nat)
    requires v.schedulers && e in s.effects && w in s.watchers
    requires s.effects[e].options.Some? && s.effects[e].options.value.scheduler == WatchScheduler(w)
    ensures var r := DispatchOne(v, s, e, fuel);
      && (!s.watchers[w].post ==> r == Job(v, s, w, fuel))
      && (s.watchers[w].post ==>
            && r == Step(s.(microtasks := s.microtasks + [PostJob(w)]), Done)
            && (s.microtasks == [] ==> Microtask(v, r.state, fuel) == Job(v, s, w, fuel)))
  {
    if s.watchers[w].post && s.microtasks == [] {
      var r := DispatchOne(v, s, e, fuel);
      assert r.state.microtasks == [PostJob(w)];
      assert r.state.(microtasks := r.state.microtasks[1..]) == s;
    }
  }
}
