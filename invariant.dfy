/**
 * The invariant of the engine is kept by every operation: the dependency store
 * stays well formed, every id in use was handed out, every Set an effect is in
 * is listed in its reverse index and vice versa (so `cleanup` removes an
 * effect from exactly the Sets it was in), and `activeEffect` is the top of
 * the effect stack. An effect run that returns leaves the stack as it found it.
 */
module Invariant {
  import opened Values
  import opened Deps
  import opened Reactivity

  /** Registering an effect under a fresh id keeps the invariant. */
  lemma RegisterInv(v: Variant, s: State, body: Expr, opts: Option<Options>)
    requires Inv(v, s)
    ensures Inv(v, Register(v, s, body, opts))
  {
    var e := s.nextId;
    var s1 := Register(v, s, body, opts);
    if v.wrapper {
      forall e': EffectId, t, k ensures e' in Subscribers(s1.bucket, t, k) <==> Dep(t, k) in DepsOf(s1, e') {
        assert e' in Subscribers(s.bucket, t, k) <==> Dep(t, k) in DepsOf(s, e');
        if e' == e {
          assert e' !in Subscribers(s.bucket, t, k);
        }
      }
    }
  }

  lemma EvalInv(v: Variant, s: State, x: Expr, fuel: nat)
    requires Inv(v, s)
    ensures var r := Eval(v, s, x, fuel);
      Inv(v, r.state) && (v.stack && r.result.Success? ==> SameStack(s, r.state))
    decreases fuel, 7, x, 2
  {
    match x
    case Lit(_) =>
    case Get(t, k) =>
      TrackInv(v, s, t, k);
    case Peek(_, _) =>
    case Cond(c, a, b) =>
      EvalCondInv(v, s, c, a, b, fuel);
    case Plus(a, b) =>
      EvalPairInv(v, s, x, a, b, fuel);
    case Then(a, b) =>
      EvalPairInv(v, s, x, a, b, fuel);
    case Assign(t, k, y) =>
      EvalAssignInv(v, s, t, k, y, fuel);
    case ComputedValue(c) =>
      ReadComputedInv(v, s, c, fuel);
    case Walk(t) =>
      TraverseInv(v, s, Ref(t), {}, true);
    case Spawn(body) =>
      EffectInv(v, s, body, DefaultOptions(v), fuel);
  }

  lemma EvalCondInv(v: Variant, s: State, c: Expr, a: Expr, b: Expr, fuel: nat)
    requires Inv(v, s)
    ensures var r := Eval(v, s, Cond(c, a, b), fuel);
      Inv(v, r.state) && (v.stack && r.result.Success? ==> SameStack(s, r.state))
    decreases fuel, 7, Cond(c, a, b), 1
  {
    EvalInv(v, s, c, fuel);
    var rc := Eval(v, s, c, fuel);
    if rc.result.Success? {
      var y := if Truthy(rc.result.value) then a else b;
      EvalInv(v, rc.state, y, fuel);
      assert Eval(v, s, Cond(c, a, b), fuel) == Eval(v, rc.state, y, fuel);
    } else {
      assert Eval(v, s, Cond(c, a, b), fuel) == rc;
    }
  }

  lemma EvalPairInv(v: Variant, s: State, x: Expr, a: Expr, b: Expr, fuel: nat)
    requires Inv(v, s) && (x == Plus(a, b) || x == Then(a, b))
    ensures var r := Eval(v, s, x, fuel);
      Inv(v, r.state) && (v.stack && r.result.Success? ==> SameStack(s, r.state))
    decreases fuel, 7, x, 1
  {
    EvalInv(v, s, a, fuel);
    var ra := Eval(v, s, a, fuel);
    if ra.result.Success? {
      EvalInv(v, ra.state, b, fuel);
      var rb := Eval(v, ra.state, b, fuel);
      var r := Eval(v, s, x, fuel);
      assert r.state == rb.state && (r.result.Success? ==> rb.result.Success?);
    } else {
      assert Eval(v, s, x, fuel) == ra;
    }
  }

  lemma EvalAssignInv(v: Variant, s: State, t: Target, k: Key, y: Expr, fuel: nat)
    requires Inv(v, s)
    ensures var r := EvalAssign(v, s, t, k, y, fuel);
      Inv(v, r.state) && (v.stack && r.result.Success? ==> SameStack(s, r.state))
    decreases fuel, 7, Assign(t, k, y), 1
  {
    EvalInv(v, s, y, fuel);
    var ry := Eval(v, s, y, fuel);
    if ry.result.Success? {
      AssignStepInv(v, s, ry, t, k, y, fuel);
    }
  }

  /** The write that ends an assignment keeps the invariant, and whatever the right-hand side kept of the stack. */
  lemma AssignStepInv(v: Variant, s: State, ry: Run, t: Target, k: Key, y: Expr, fuel: nat)
    requires Inv(v, ry.state) && ry.result.Success? && (v.stack ==> SameStack(s, ry.state))
    ensures var w := Write(v, ry.state, t, k, ry.result.value, false, fuel);
      Inv(v, w.state) && (v.stack && w.outcome.Done? ==> SameStack(s, w.state))
    decreases fuel, 7, Assign(t, k, y), 0
  {
    WriteInv(v, ry.state, t, k, ry.result.value, false, fuel);
  }

  lemma WriteInv(v: Variant, s: State, t: Target, k: Key, x: Value, readonly: bool, fuel: nat)
    requires Inv(v, s)
    ensures var r := Write(v, s, t, k, x, readonly, fuel);
      Inv(v, r.state) && (v.stack && r.outcome.Done? ==> SameStack(s, r.state))
    decreases fuel, 6
  {
    var o := ObjectOf(s, t);
    var s1 := s.(objects := s.objects[t := SetProperty(o, k, x)]);
    assert Inv(v, s1);
    match v.handler
    case AlwaysTrigger =>
      TriggerInv(v, s1, t, k, SetOp, x, fuel);
    case TriggerIfChanged =>
      if HasChanged(Prop(o, k), x) {
        TriggerInv(v, s1, t, k, SetOp, x, fuel);
      }
    case ClassifyWrite =>
      if !readonly && HasChanged(Prop(o, k), x) {
        TriggerInv(v, s1, t, k, Classify(o, k), x, fuel);
      }
  }

  lemma TriggerInv(v: Variant, s: State, t: Target, k: Key, kind: TriggerType, newVal: Value, fuel: nat)
    requires Inv(v, s)
    ensures var r := Trigger(v, s, t, k, kind, newVal, fuel);
      Inv(v, r.state) && (v.stack && r.outcome.Done? ==> SameStack(s, r.state))
    decreases fuel, 5
  {
    match Collect(v, s, t, k, kind, newVal)
    case Failure(_) =>
    case Success(list) =>
      if v.liveIteration {
        LiveRunInv(v, s, t, k, 0, fuel);
      } else {
        DispatchInv(v, s, list, fuel);
      }
  }

  lemma DispatchInv(v: Variant, s: State, list: seq<EffectId>, fuel: nat)
    requires Inv(v, s)
    ensures var r := Dispatch(v, s, list, fuel);
      Inv(v, r.state) && (v.stack && r.outcome.Done? ==> SameStack(s, r.state))
    decreases fuel, 4, |list|
  {
    if list != [] {
      DispatchOneInv(v, s, list[0], fuel);
      var r1 := DispatchOne(v, s, list[0], fuel);
      if r1.outcome.Done? {
        DispatchInv(v, r1.state, list[1..], fuel);
      }
    }
  }

  lemma LiveRunInv(v: Variant, s: State, t: Target, k: Key, i: nat, fuel: nat)
    requires Inv(v, s)
    ensures var r := LiveRun(v, s, t, k, i, fuel);
      Inv(v, r.state) && (v.stack && r.outcome.Done? ==> SameStack(s, r.state))
    decreases fuel, 4
  {
    var live := Subscribers(s.bucket, t, k);
    if fuel > 0 && i < |live| {
      RunEffectInv(v, s, live[i], fuel);
      var a := RunEffect(v, s, live[i], fuel);
      if a.result.Success? {
        LiveRunInv(v, a.state, t, k, i + 1, fuel - 1);
      }
    }
  }

  lemma DispatchOneInv(v: Variant, s: State, e: EffectId, fuel: nat)
    requires Inv(v, s)
    ensures var r := DispatchOne(v, s, e, fuel);
      Inv(v, r.state) && (v.stack && r.outcome.Done? ==> SameStack(s, r.state))
    decreases fuel, 3, 1
  {
    if !v.schedulers || e !in s.effects {
      DirectInv(v, s, e, fuel);
    } else if s.effects[e].options.Some? {
      match s.effects[e].options.value.scheduler
      case NoScheduler =>
        DirectInv(v, s, e, fuel);
      case QueueScheduler =>
      case ComputedScheduler(c) =>
        ComputedSchedulerInv(v, s, e, c, fuel);
      case WatchScheduler(w) =>
        WatchSchedulerInv(v, s, e, w, fuel);
    }
  }

  /** An effect without a scheduler runs at once, keeping the invariant. */
  lemma DirectInv(v: Variant, s: State, e: EffectId, fuel: nat)
    requires Inv(v, s)
    requires !v.schedulers || e !in s.effects ||
             (s.effects[e].options.Some? && s.effects[e].options.value.scheduler == NoScheduler)
    ensures var r := DispatchOne(v, s, e, fuel);
      Inv(v, r.state) && (v.stack && r.outcome.Done? ==> SameStack(s, r.state))
    decreases fuel, 3, 0
  {
    RunEffectInv(v, s, e, fuel);
    var a := RunEffect(v, s, e, fuel);
    assert DispatchOne(v, s, e, fuel) == Step(a.state, OutcomeOf(a.result));
  }

  /** The scheduler of a computed keeps the invariant. */
  lemma ComputedSchedulerInv(v: Variant, s: State, e: EffectId, c: nat, fuel: nat)
    requires Inv(v, s) && v.schedulers && e in s.effects
    requires s.effects[e].options.Some? && s.effects[e].options.value.scheduler == ComputedScheduler(c)
    ensures var r := DispatchOne(v, s, e, fuel);
      Inv(v, r.state) && (v.stack && r.outcome.Done? ==> SameStack(s, r.state))
    decreases fuel, 3, 0
  {
    var s1 := MarkDirty(s, c);
    MarkDirtyInv(v, s, c);
    DispatchComputed(v, s, e, c, fuel);
    if fuel > 0 {
      TriggerInv(v, s1, Cell(c), ValueKey, SetOp, Undefined, fuel - 1);
    }
  }

  /** The computed scheduler marks the cache dirty, then triggers (c, 'value') when fuel remains. */
  lemma DispatchComputed(v: Variant, s: State, e: EffectId, c: nat, fuel: nat)
    requires v.schedulers && e in s.effects
    requires s.effects[e].options.Some? && s.effects[e].options.value.scheduler == ComputedScheduler(c)
    ensures DispatchOne(v, s, e, fuel) ==
            if fuel == 0 then Step(MarkDirty(s, c), Done)
            else Trigger(v, MarkDirty(s, c), Cell(c), ValueKey, SetOp, Undefined, fuel - 1)
  {
  }

  /** Marking a computed dirty keeps the invariant and the stack. */
  lemma MarkDirtyInv(v: Variant, s: State, c: nat)
    requires Inv(v, s)
    ensures Inv(v, MarkDirty(s, c)) && SameStack(s, MarkDirty(s, c))
  {
  }

  /** The scheduler of a watcher keeps the invariant. */
  lemma WatchSchedulerInv(v: Variant, s: State, e: EffectId, w: nat, fuel: nat)
    requires Inv(v, s) && v.schedulers && e in s.effects
    requires s.effects[e].options.Some? && s.effects[e].options.value.scheduler == WatchScheduler(w)
    ensures var r := DispatchOne(v, s, e, fuel);
      Inv(v, r.state) && (v.stack && r.outcome.Done? ==> SameStack(s, r.state))
    decreases fuel, 3, 0
  {
    if w in s.watchers && !s.watchers[w].post {
      JobInv(v, s, w, fuel);
    }
  }

  lemma JobInv(v: Variant, s: State, w: nat, fuel: nat)
    requires Inv(v, s)
    ensures var r := Job(v, s, w, fuel);
      Inv(v, r.state) && (v.stack && r.outcome.Done? ==> SameStack(s, r.state))
    decreases fuel, 2
  {
    if w in s.watchers {
      RunEffectInv(v, s, s.watchers[w].effect, fuel);
    }
  }

  lemma ReadComputedInv(v: Variant, s: State, c: nat, fuel: nat)
    requires Inv(v, s)
    ensures var r := ReadComputed(v, s, c, fuel);
      Inv(v, r.state) && (v.stack && r.result.Success? ==> SameStack(s, r.state))
    decreases fuel, 2
  {
    if c in s.computeds {
      var cr := s.computeds[c];
      if cr.dirty {
        RunEffectInv(v, s, cr.effect, fuel);
      }
      var a := if cr.dirty then RunEffect(v, s, cr.effect, fuel) else Run(s, Success(cr.value));
      if a.result.Success? {
        var s2 := if cr.dirty then a.state.(computeds := a.state.computeds[c := ComputedRec(cr.effect, a.result.value, false)])
                  else a.state;
        TrackInv(v, s2, Cell(c), ValueKey);
      }
    }
  }

  lemma EffectInv(v: Variant, s: State, body: Expr, opts: Option<Options>, fuel: nat)
    requires Inv(v, s)
    ensures var r := Effect(v, s, body, opts, fuel);
      Inv(v, r.state) && (v.stack && r.outcome.Done? ==> SameStack(s, r.state))
    decreases fuel, 1
  {
    RegisterInv(v, s, body, opts);
    if RunsAtCreation(v, opts) {
      RunEffectInv(v, Register(v, s, body, opts), s.nextId, fuel);
    }
  }

  lemma RunEffectInv(v: Variant, s: State, e: EffectId, fuel: nat)
    requires Inv(v, s)
    ensures var r := RunEffect(v, s, e, fuel);
      Inv(v, r.state) && (v.stack && r.result.Success? ==> SameStack(s, r.state))
    decreases fuel, 0
  {
    if fuel > 0 && e in s.effects {
      assert e < s.nextId;
      var s1 := Enter(v, s, e);
      EnterInv(v, s, e);
      EvalInv(v, s1, s.effects[e].body, fuel - 1);
      var a := Eval(v, s1, s.effects[e].body, fuel - 1);
      if a.result.Success? {
        ExitInv(v, a.state);
      }
      if a.result.Success? && v.stack {
        assert a.state.stack == s.stack + [e];
        assert Exit(v, a.state).stack == s.stack;
      }
    }
  }

  lemma TraverseInv(v: Variant, s: State, x: Value, seen: set<Target>, tracked: bool)
    requires Inv(v, s)
    ensures Inv(v, Traverse(v, s, x, seen, tracked).state)
    decreases |s.objects.Keys - seen|, 0
  {
    if x.Ref? && x.target !in seen && x.target in s.objects {
      var t := x.target;
      SubsetCard(s.objects.Keys - (seen + {t}), s.objects.Keys - seen);
      TraverseKeysInv(v, s, t, s.objects[t].keys, seen + {t}, tracked);
    }
  }

  lemma TraverseKeysInv(v: Variant, s: State, t: Target, keys: seq<Key>, seen: set<Target>, tracked: bool)
    requires Inv(v, s)
    ensures Inv(v, TraverseKeys(v, s, t, keys, seen, tracked).state)
    decreases |s.objects.Keys - seen|, 1, |keys|
  {
    if keys != [] {
      TrackInv(v, s, t, keys[0]);
      var s1 := if tracked then Track(v, s, t, keys[0]) else s;
      TraverseInv(v, s1, Read(s1, t, keys[0]), seen, tracked && v.deepReads);
      var w := Traverse(v, s1, Read(s1, t, keys[0]), seen, tracked && v.deepReads);
      SubsetCard(s.objects.Keys - w.seen, s.objects.Keys - seen);
      TraverseKeysInv(v, w.state, t, keys[1..], w.seen, tracked);
    }
  }

  lemma ComputedInv(v: Variant, s: State, getter: Expr, fuel: nat)
    requires Inv(v, s)
    ensures Inv(v, Computed(v, s, getter, fuel).state)
  {
    var c := s.nextId;
    EffectInv(v, s.(nextId := c + 1), getter, Some(Options(true, ComputedScheduler(c))), fuel);
  }

  lemma WatchInv(v: Variant, s: State, src: Source, opts: WatchOptions, registers: bool, fuel: nat)
    requires Inv(v, s)
    ensures Inv(v, Watch(v, s, src, opts, registers, fuel).state)
  {
    var w := s.nextId;
    WatchSetUpInv(v, s, src, opts, registers, fuel);
    var reg := WatchSetUp(v, s, src, opts, registers, fuel);
    if opts.immediate {
      JobInv(v, reg.state, w, fuel);
    } else {
      RunEffectInv(v, reg.state, reg.state.watchers[w].effect, fuel);
    }
  }

  lemma WatchSetUpInv(v: Variant, s: State, src: Source, opts: WatchOptions, registers: bool, fuel: nat)
    requires Inv(v, s)
    ensures Inv(v, WatchSetUp(v, s, src, opts, registers, fuel).state)
  {
    var w := s.nextId;
    EffectInv(v, s.(nextId := w + 1), WatchGetter(src), Some(Options(true, WatchScheduler(w))), fuel);
  }

  lemma RunJobsInv(v: Variant, s: State, i: nat, fuel: nat)
    requires Inv(v, s)
    ensures Inv(v, RunJobs(v, s, i, fuel).state)
    decreases fuel
  {
    if fuel > 0 && i < |s.jobQueue| {
      RunEffectInv(v, s, s.jobQueue[i], fuel);
      var a := RunEffect(v, s, s.jobQueue[i], fuel);
      if a.result.Success? {
        RunJobsInv(v, a.state, i + 1, fuel - 1);
      }
    }
  }

  lemma MicrotaskInv(v: Variant, s: State, fuel: nat)
    requires Inv(v, s)
    ensures Inv(v, Microtask(v, s, fuel).state)
  {
    if s.microtasks != [] {
      var s1 := s.(microtasks := s.microtasks[1..]);
      match s.microtasks[0]
      case FlushJobs =>
        RunJobsInv(v, s1, 0, fuel);
      case ClearFlushing =>
      case PostJob(w) =>
        JobInv(v, s1, w, fuel);
    }
  }
}
