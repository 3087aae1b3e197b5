/**
 * What the engine promises about effects whose bodies only read: the value a
 * run computes, the dependencies it records, and the consequences the
 * demonstration scripts of the source files rely on (a stale branch is
 * dropped, nested effects with and without a stack, computed caching, watch
 * callbacks, batched jobs).
 */
module Properties {
  import opened Values
  import opened Deps
  import opened Reactivity
  import opened Invariant

  /** A body made of reads, literals, conditionals and `+` only. */
  predicate ReadOnly(x: Expr)
  {
    match x
    case Lit(_) => true
    case Get(_, _) => true
    case Peek(_, _) => true
    case Cond(c, a, b) => ReadOnly(c) && ReadOnly(a) && ReadOnly(b)
    case Plus(a, b) => ReadOnly(a) && ReadOnly(b)
    case Then(a, b) => ReadOnly(a) && ReadOnly(b)
    case _ => false
  }

  /** The value of a read-only body over the given raw objects. */
  function ValueOf(objs: map<Target, JsObject>, x: Expr): Value
    requires ReadOnly(x)
  {
    match x
    case Lit(c) => c
    case Get(t, k) => Prop(if t in objs then objs[t] else EmptyObject, k)
    case Peek(t, k) => Prop(if t in objs then objs[t] else EmptyObject, k)
    case Cond(c, a, b) => if Truthy(ValueOf(objs, c)) then ValueOf(objs, a) else ValueOf(objs, b)
    case Plus(a, b) => Add(ValueOf(objs, a), ValueOf(objs, b))
    case Then(_, b) => ValueOf(objs, b)
  }

  /**
   * The tracked reads of a read-only body, in evaluation order: only the branch
   * a conditional takes is read.
   */
  function Reads(objs: map<Target, JsObject>, x: Expr): seq<Dep>
    requires ReadOnly(x)
  {
    match x
    case Lit(_) => []
    case Get(t, k) => [Dep(t, k)]
    case Peek(_, _) => []
    case Cond(c, a, b) => Reads(objs, c) + (if Truthy(ValueOf(objs, c)) then Reads(objs, a) else Reads(objs, b))
    case Plus(a, b) => Reads(objs, a) + Reads(objs, b)
    case Then(a, b) => Reads(objs, a) + Reads(objs, b)
  }

  /**
   * State r is state s after the active effect read `ds`: only the store
   * changed, the active effect joined exactly the Sets named in `ds`, no other
   * membership changed, and (for wrapped effects) `ds` was appended to the
   * active effect's reverse index.
   */
  ghost predicate Tracked(v: Variant, s: State, r: State, ds: seq<Dep>)
  {
    && r == s.(bucket := r.bucket, deps := r.deps)
    && (forall t, k, e :: e in Subscribers(r.bucket, t, k) <==>
          e in Subscribers(s.bucket, t, k) || (s.active.Some? && s.active.value == e && Dep(t, k) in ds))
    && (s.active.Some? && v.wrapper ==> DepsOf(r, s.active.value) == DepsOf(s, s.active.value) + ds)
    && (forall e: EffectId | s.active.None? || s.active.value != e || !v.wrapper :: DepsOf(r, e) == DepsOf(s, e))
  }

  /** Reads in sequence compose. */
  lemma TrackedThen(v: Variant, s: State, s1: State, s2: State, ds1: seq<Dep>, ds2: seq<Dep>)
    requires Tracked(v, s, s1, ds1) && Tracked(v, s1, s2, ds2)
    ensures Tracked(v, s, s2, ds1 + ds2)
  {
    assert s1.active == s.active;
    forall t, k, e ensures e in Subscribers(s2.bucket, t, k) <==>
        e in Subscribers(s.bucket, t, k) || (s.active.Some? && s.active.value == e && Dep(t, k) in ds1 + ds2) {
      assert e in Subscribers(s1.bucket, t, k) <==>
        e in Subscribers(s.bucket, t, k) || (s.active.Some? && s.active.value == e && Dep(t, k) in ds1);
      assert e in Subscribers(s2.bucket, t, k) <==>
        e in Subscribers(s1.bucket, t, k) || (s.active.Some? && s.active.value == e && Dep(t, k) in ds2);
      assert Dep(t, k) in ds1 + ds2 <==> Dep(t, k) in ds1 || Dep(t, k) in ds2;
    }
    if s.active.Some? && v.wrapper {
      var a := s.active.value;
      assert DepsOf(s2, a) == DepsOf(s, a) + ds1 + ds2;
      assert DepsOf(s, a) + ds1 + ds2 == DepsOf(s, a) + (ds1 + ds2);
    }
  }

  /**
   * Evaluating a read-only body computes its value and subscribes the active
   * effect to exactly the reads it makes.
   */
  lemma {:induction false} EvalReadOnly(v: Variant, s: State, x: Expr, fuel: nat)
    requires ReadOnly(x)
    ensures var r := Eval(v, s, x, fuel);
      r.result == Success(ValueOf(s.objects, x)) && Tracked(v, s, r.state, Reads(s.objects, x))
    decreases x, 1
  {
    match x
    case Lit(_) =>
      EvalReadOnlyLeaf(v, s, x, fuel);
    case Get(t, k) =>
      EvalReadOnlyLeaf(v, s, x, fuel);
    case Peek(_, _) =>
      EvalReadOnlyLeaf(v, s, x, fuel);
    case Cond(c, a, b) =>
      EvalReadOnlyCond(v, s, c, a, b, fuel);
    case Plus(a, b) =>
      EvalReadOnlyPair(v, s, x, a, b, fuel);
    case Then(a, b) =>
      EvalReadOnlyPair(v, s, x, a, b, fuel);
  }

  /** The leaves of EvalReadOnly: a literal and an untracked read read nothing, a tracked read reads one key. */
  lemma EvalReadOnlyLeaf(v: Variant, s: State, x: Expr, fuel: nat)
    requires x.Lit? || x.Get? || x.Peek?
    ensures var r := Eval(v, s, x, fuel);
      r.result == Success(ValueOf(s.objects, x)) && Tracked(v, s, r.state, Reads(s.objects, x))
  {
    if x.Get? {
      TrackTracked(v, s, x.target, x.key);
      assert Reads(s.objects, x) == [Dep(x.target, x.key)];
    } else {
      assert Tracked(v, s, s, []);
    }
  }

  /** One `track` is a tracked read of one key. */
  lemma TrackTracked(v: Variant, s: State, t: Target, k: Key)
    ensures Tracked(v, s, Track(v, s, t, k), [Dep(t, k)])
  {
    var r := Track(v, s, t, k);
    TrackFrame(v, s, t, k);
    forall t', k', e ensures e in Subscribers(r.bucket, t', k') <==>
        e in Subscribers(s.bucket, t', k') || (s.active.Some? && s.active.value == e && Dep(t', k') in [Dep(t, k)]) {
      if t' != t || k' != k {
        assert Subscribers(r.bucket, t', k') == Subscribers(s.bucket, t', k');
      }
    }
  }

  /** The conditional case of EvalReadOnly: the condition's reads, then the chosen branch's. */
  lemma {:induction false} EvalReadOnlyCond(v: Variant, s: State, c: Expr, a: Expr, b: Expr, fuel: nat)
    requires ReadOnly(Cond(c, a, b))
    ensures var r := Eval(v, s, Cond(c, a, b), fuel);
      r.result == Success(ValueOf(s.objects, Cond(c, a, b))) && Tracked(v, s, r.state, Reads(s.objects, Cond(c, a, b)))
    decreases Cond(c, a, b), 0
  {
    EvalReadOnly(v, s, c, fuel);
    var s1 := Eval(v, s, c, fuel).state;
    var y := if Truthy(ValueOf(s.objects, c)) then a else b;
    EvalReadOnly(v, s1, y, fuel);
    TrackedThen(v, s, s1, Eval(v, s1, y, fuel).state, Reads(s.objects, c), Reads(s.objects, y));
  }

  /** The sequencing cases of EvalReadOnly: the reads of both operands, in order. */
  lemma {:induction false} EvalReadOnlyPair(v: Variant, s: State, x: Expr, a: Expr, b: Expr, fuel: nat)
    requires ReadOnly(x) && (x == Plus(a, b) || x == Then(a, b))
    ensures var r := Eval(v, s, x, fuel);
      r.result == Success(ValueOf(s.objects, x)) && Tracked(v, s, r.state, Reads(s.objects, x))
    decreases x, 0
  {
    EvalReadOnly(v, s, a, fuel);
    var s1 := Eval(v, s, a, fuel).state;
    EvalReadOnly(v, s1, b, fuel);
    TrackedThen(v, s, s1, Eval(v, s1, b, fuel).state, Reads(s.objects, a), Reads(s.objects, b));
  }

  /**
   * A run of a read-only effect: it computes the body's value over the current
   * objects, logs one run, and changes nothing but the store, the stack and the
   * log. With a stack the active effect is restored; without one it stays the
   * effect that just ran.
   */
  lemma RunReadOnly(v: Variant, s: State, e: EffectId, fuel: nat)
    requires Inv(v, s) && fuel > 0 && e in s.effects && ReadOnly(s.effects[e].body)
    ensures var r := RunEffect(v, s, e, fuel);
      var body := s.effects[e].body;
      var val := ValueOf(s.objects, body);
      && r.result == Success(if v.lazyAndResult then val else Undefined)
      && r.state.log == s.log + [Ran(e, val)]
      && r.state == s.(bucket := r.state.bucket, deps := r.state.deps, stack := r.state.stack,
                       active := r.state.active, log := r.state.log)
      && (v.stack ==> SameStack(s, r.state))
      && (v.wrapper && !v.stack ==> r.state.active == Some(e))
      && (!v.wrapper ==> Tracked(v, s, r.state.(log := s.log), Reads(s.objects, body)))
  {
    assert e < s.nextId;
    EvalReadOnly(v, Enter(v, s, e), s.effects[e].body, fuel - 1);
    RunEffectInv(v, s, e, fuel);
  }

  /** Reads made right after a wrapped effect entered are all its subscriptions. */
  lemma ReadsAfterEnter(v: Variant, s: State, e: EffectId, a: State, ds: seq<Dep>)
    requires Inv(v, s) && v.wrapper && e < s.nextId && Tracked(v, Enter(v, s, e), a, ds)
    ensures forall t, k :: e in Subscribers(a.bucket, t, k) <==> Dep(t, k) in ds
    ensures forall t, k, e' | e' != e :: e' in Subscribers(a.bucket, t, k) <==> e' in Subscribers(s.bucket, t, k)
  {
    var s1 := Enter(v, s, e);
    EnterInv(v, s, e);
    assert Tracked(v, s1, a, ds);
    forall t, k, e' | e' != e
      ensures e' in Subscribers(a.bucket, t, k) <==> e' in Subscribers(s.bucket, t, k)
    {
      assert e' in Subscribers(a.bucket, t, k) <==>
             e' in Subscribers(s1.bucket, t, k) || (s1.active.Some? && s1.active.value == e' && Dep(t, k) in ds);
      assert s1.active == Some(e);
      assert e' in Subscribers(Enter(v, s, e).bucket, t, k) <==> e' in Subscribers(s.bucket, t, k);
    }
  }

  /**
   * After a run of a read-only wrapped effect, the effect is in exactly the
   * Sets this run read (the stale ones are gone), and no other effect's
   * memberships change.
   */
  lemma ResubscribeExactly(v: Variant, s: State, e: EffectId, fuel: nat)
    requires Inv(v, s) && v.wrapper && fuel > 0 && e in s.effects && ReadOnly(s.effects[e].body)
    ensures var r := RunEffect(v, s, e, fuel);
      && (forall t, k :: e in Subscribers(r.state.bucket, t, k) <==> Dep(t, k) in Reads(s.objects, s.effects[e].body))
      && (forall t, k, e' | e' != e :: e' in Subscribers(r.state.bucket, t, k) <==> e' in Subscribers(s.bucket, t, k))
  {
    assert e < s.nextId;
    var body := s.effects[e].body;
    var s1 := Enter(v, s, e);
    EvalReadOnly(v, s1, body, fuel - 1);
    var a := Eval(v, s1, body, fuel - 1);
    ReadsAfterEnter(v, s, e, a.state, Reads(s.objects, body));
    RunEffectStore(v, s, e, fuel);
  }

  /** A run of an effect leaves the store as its body's evaluation left it. */
  lemma RunEffectStore(v: Variant, s: State, e: EffectId, fuel: nat)
    requires fuel > 0 && e in s.effects
    ensures RunEffect(v, s, e, fuel).state.bucket == Eval(v, Enter(v, s, e), s.effects[e].body, fuel - 1).state.bucket
  {
  }

  /**
   * A trigger on a pair nobody is subscribed to, when the variant neither
   * throws nor fans out for it, does nothing (step3.js' `notExist` write, the
   * empty copy of prac.js and step5.js).
   */
  lemma TriggerNobody(v: Variant, s: State, t: Target, k: Key, kind: TriggerType, newVal: Value, fuel: nat)
    requires !CollectThrows(v, s, t, k) && Subscribers(s.bucket, t, k) == []
    requires !(v.fanOut && ObjectOf(s, t).isArray && (kind == AddOp || k == LengthKey))
    ensures Trigger(v, s, t, k, kind, newVal, fuel) == Step(s, Done)
  {
  }

  /**
   * `effect(fn, options)` with a read-only `fn` that is not lazy: the new effect
   * (the next id) runs exactly once, logging the body's value. With a stack the
   * caller's active effect is active again afterwards; without one the new
   * effect stays active.
   */
  lemma EffectReadOnly(v: Variant, s: State, body: Expr, opts: Option<Options>, fuel: nat)
    requires Inv(v, s) && ReadOnly(body) && fuel > 0 && RunsAtCreation(v, opts)
    ensures var r := Effect(v, s, body, opts, fuel);
      && r.outcome == Done
      && r.state.log == s.log + [Ran(s.nextId, ValueOf(s.objects, body))]
      && Inv(v, r.state) && r.state.objects == s.objects
      && (v.stack ==> SameStack(s, r.state))
      && (!v.stack ==> r.state.active == Some(s.nextId))
  {
    RegisterInv(v, s, body, opts);
    RunReadOnly(v, Register(v, s, body, opts), s.nextId, fuel);
    EffectInv(v, s, body, opts, fuel);
  }

  /**
   * After `effect(fn, options)` with a read-only `fn` that is not lazy, the new
   * effect is subscribed to exactly the reads of its first run, and no other
   * membership changes.
   */
  lemma EffectSubscribes(v: Variant, s: State, body: Expr, opts: Option<Options>, fuel: nat)
    requires Inv(v, s) && ReadOnly(body) && fuel > 0 && RunsAtCreation(v, opts)
    ensures var r := Effect(v, s, body, opts, fuel);
      && (forall t, k :: s.nextId in Subscribers(r.state.bucket, t, k) <==> Dep(t, k) in Reads(s.objects, body))
      && (forall t, k, e | e != s.nextId :: e in Subscribers(r.state.bucket, t, k) <==> e in Subscribers(s.bucket, t, k))
  {
    var s1 := Register(v, s, body, opts);
    RegisterInv(v, s, body, opts);
    if v.wrapper {
      ResubscribeExactly(v, s1, s.nextId, fuel);
    } else {
      assert forall t, k :: s.nextId !in Subscribers(s1.bucket, t, k);
      RawRunSubscribes(v, s1, s.nextId, fuel);
    }
  }

  /**
   * A run of a read-only raw effect (step3.js) that is active and in no Set
   * yet leaves it in exactly the Sets it read.
   */
  lemma RawRunSubscribes(v: Variant, s: State, e: EffectId, fuel: nat)
    requires Inv(v, s) && !v.wrapper && fuel > 0 && e in s.effects && ReadOnly(s.effects[e].body)
    requires s.active == Some(e) && forall t, k :: e !in Subscribers(s.bucket, t, k)
    ensures var r := RunEffect(v, s, e, fuel);
      && (forall t, k :: e in Subscribers(r.state.bucket, t, k) <==> Dep(t, k) in Reads(s.objects, s.effects[e].body))
      && (forall t, k, e' | e' != e :: e' in Subscribers(r.state.bucket, t, k) <==> e' in Subscribers(s.bucket, t, k))
  {
    RunReadOnly(v, s, e, fuel);
    var a := RunEffect(v, s, e, fuel).state;
    var ds := Reads(s.objects, s.effects[e].body);
    var a' := a.(log := s.log);
    assert Tracked(v, s, a', ds);
    assert a'.bucket == a.bucket;
    forall t, k ensures e in Subscribers(a.bucket, t, k) <==> Dep(t, k) in ds {
      assert e in Subscribers(a'.bucket, t, k) <==>
             e in Subscribers(s.bucket, t, k) || (s.active.Some? && s.active.value == e && Dep(t, k) in ds);
    }
    forall t, k, e' | e' != e
      ensures e' in Subscribers(a.bucket, t, k) <==> e' in Subscribers(s.bucket, t, k)
    {
      assert e' in Subscribers(a'.bucket, t, k) <==>
             e' in Subscribers(s.bucket, t, k) || (s.active.Some? && s.active.value == e' && Dep(t, k) in ds);
    }
  }

  /** `effect(inner)` called from a running effect, with a read-only inner body. */
  lemma SpawnReadOnly(v: Variant, s: State, inner: Expr, fuel: nat)
    requires Inv(v, s) && ReadOnly(inner) && fuel > 0
    ensures var r := Eval(v, s, Spawn(inner), fuel);
      && r.result == Success(Undefined)
      && Inv(v, r.state) && r.state.objects == s.objects
      && (v.stack ==> SameStack(s, r.state))
      && (!v.stack ==> r.state.active == Some(s.nextId))
      && (forall t, k :: s.nextId in Subscribers(r.state.bucket, t, k) <==> Dep(t, k) in Reads(s.objects, inner))
      && (forall t, k, e | e != s.nextId :: e in Subscribers(r.state.bucket, t, k) <==> e in Subscribers(s.bucket, t, k))
  {
    EffectReadOnly(v, s, inner, DefaultOptions(v), fuel);
    EffectSubscribes(v, s, inner, DefaultOptions(v), fuel);
  }

  /**
   * Nested effects with a stack (prac-22_5_4.js): after the inner effect
   * returns, the outer effect is active again, so the outer body's next read
   * subscribes the outer effect.
   */
  lemma NestedWithStack(v: Variant, s: State, inner: Expr, t: Target, k: Key, fuel: nat)
    requires Inv(v, s) && v.stack && s.active.Some? && ReadOnly(inner) && fuel > 0
    ensures var r := Eval(v, s, Then(Spawn(inner), Get(t, k)), fuel);
      && r.result.Success?
      && s.active.value in Subscribers(r.state.bucket, t, k)
      && (s.nextId in Subscribers(r.state.bucket, t, k) <==> Dep(t, k) in Reads(s.objects, inner))
  {
    SpawnReadOnly(v, s, inner, fuel);
  }

  /**
   * Nested effects without a stack (step5-before.js): the inner effect
   * overwrites `activeEffect` and nothing restores it, so the outer body's next
   * read subscribes the inner effect, and the outer effect's memberships are
   * left as they were.
   */
  lemma NestedWithoutStack(v: Variant, s: State, inner: Expr, t: Target, k: Key, fuel: nat)
    requires Inv(v, s) && v.wrapper && !v.stack && ReadOnly(inner) && fuel > 0
    ensures var r := Eval(v, s, Then(Spawn(inner), Get(t, k)), fuel);
      && r.result.Success?
      && s.nextId in Subscribers(r.state.bucket, t, k)
      && (forall e | e != s.nextId :: e in Subscribers(r.state.bucket, t, k) <==> e in Subscribers(s.bucket, t, k))
  {
    SpawnReadOnly(v, s, inner, fuel);
  }

  /**
   * The conditional body of step4.js, `obj.ok ? obj.text : 'text'`: after a re-run
   * the effect stays in the Set of `ok`, and it is in the Set of `text` exactly
   * when `ok` is truthy, so a falsy `ok` drops the stale `text` subscription.
   */
  lemma StaleBranchDropped(v: Variant, s: State, e: EffectId, o: Target, fuel: nat)
    requires Inv(v, s) && v.wrapper && fuel > 0 && e in s.effects
    requires s.effects[e].body == Cond(Get(o, Name("ok")), Get(o, Name("text")), Lit(Str("text")))
    ensures var r := RunEffect(v, s, e, fuel);
      && e in Subscribers(r.state.bucket, o, Name("ok"))
      && (e in Subscribers(r.state.bucket, o, Name("text")) <==> Truthy(Read(s, o, Name("ok"))))
  {
    ResubscribeExactly(v, s, e, fuel);
    var ok := Truthy(Read(s, o, Name("ok")));
    assert Reads(s.objects, s.effects[e].body) == [Dep(o, Name("ok"))] + (if ok then [Dep(o, Name("text"))] else []);
    assert Name("ok") != Name("text");
  }

  // ---------------------------------------------------------------------------
  // What `traverse` subscribes to

  /** Every subscriber of every Set of b is still a subscriber of that Set in b'. */
  ghost predicate KeepsSubscribers(b: Bucket, b': Bucket)
  {
    forall e, t, k :: e in Subscribers(b, t, k) ==> e in Subscribers(b', t, k)
  }

  /** e is subscribed to every key of every object of s in ts. */
  ghost predicate Covered(s: State, b: Bucket, e: EffectId, ts: set<Target>)
  {
    forall u, k :: u in ts && u in s.objects && k in s.objects[u].keys ==> e in Subscribers(b, u, k)
  }

  /** `track` only adds: no effect leaves any Set. */
  lemma TrackKeeps(v: Variant, s: State, t: Target, k: Key)
    ensures KeepsSubscribers(s.bucket, Track(v, s, t, k).bucket)
  {
    TrackFrame(v, s, t, k);
    var r := Track(v, s, t, k);
    forall e, t', k' | e in Subscribers(s.bucket, t', k')
      ensures e in Subscribers(r.bucket, t', k')
    {
      if s.active.Some? && t' == t && k' == k {
        assert Subscribers(r.bucket, t, k) == SetAdd(Subscribers(s.bucket, t, k), s.active.value);
      }
    }
  }

  /** `traverse` only adds subscribers. */
  lemma {:induction false} TraverseKeeps(v: Variant, s: State, x: Value, seen: set<Target>, tracked: bool)
    ensures KeepsSubscribers(s.bucket, Traverse(v, s, x, seen, tracked).state.bucket)
    decreases |s.objects.Keys - seen|, 0
  {
    if x.Ref? && x.target !in seen && x.target in s.objects {
      var t := x.target;
      SubsetCard(s.objects.Keys - (seen + {t}), s.objects.Keys - seen);
      TraverseKeysKeeps(v, s, t, s.objects[t].keys, seen + {t}, tracked);
    }
  }

  /** The `for ... in` loop of `traverse` only adds subscribers. */
  lemma {:induction false} TraverseKeysKeeps(v: Variant, s: State, t: Target, keys: seq<Key>, seen: set<Target>,
                                             tracked: bool)
    ensures KeepsSubscribers(s.bucket, TraverseKeys(v, s, t, keys, seen, tracked).state.bucket)
    decreases |s.objects.Keys - seen|, 1, |keys|
  {
    if keys != [] {
      var s1 := if tracked then Track(v, s, t, keys[0]) else s;
      var w := Traverse(v, s1, Read(s1, t, keys[0]), seen, tracked && v.deepReads);
      TrackKeeps(v, s, t, keys[0]);
      TraverseKeysStep(v, s, t, keys, seen, tracked);
      TraverseKeeps(v, s1, Read(s1, t, keys[0]), seen, tracked && v.deepReads);
      SubsetCard(s.objects.Keys - w.seen, s.objects.Keys - seen);
      TraverseKeysKeeps(v, w.state, t, keys[1..], w.seen, tracked);
    }
  }

  /** The tracked loop subscribes the active effect to every key it walks. */
  lemma {:induction false} TraverseKeysSubscribes(v: Variant, s: State, t: Target, keys: seq<Key>, seen: set<Target>)
    requires s.active.Some?
    ensures forall k :: k in keys ==>
              s.active.value in Subscribers(TraverseKeys(v, s, t, keys, seen, true).state.bucket, t, k)
    decreases |keys|
  {
    if keys != [] {
      var e := s.active.value;
      var s1 := Track(v, s, t, keys[0]);
      var w := Traverse(v, s1, Read(s1, t, keys[0]), seen, v.deepReads);
      TraverseKeysStep(v, s, t, keys, seen, true);
      assert e in Subscribers(s1.bucket, t, keys[0]);
      TraverseKeeps(v, s1, Read(s1, t, keys[0]), seen, v.deepReads);
      TraverseKeysSubscribes(v, w.state, t, keys[1..], w.seen);
      TraverseKeysKeeps(v, w.state, t, keys[1..], w.seen, true);
      assert forall k :: k in keys <==> k == keys[0] || k in keys[1..];
    }
  }

  /** When nested reads are tracked, every object the walk enters ends up subscribed on all its keys. */
  lemma {:induction false} TraverseCovers(v: Variant, s: State, x: Value, seen: set<Target>)
    requires v.deepReads && s.active.Some?
    ensures var w := Traverse(v, s, x, seen, true); Covered(s, w.state.bucket, s.active.value, w.seen - seen)
    decreases |s.objects.Keys - seen|, 0
  {
    if x.Ref? && x.target !in seen && x.target in s.objects {
      var t := x.target;
      SubsetCard(s.objects.Keys - (seen + {t}), s.objects.Keys - seen);
      TraverseKeysCovers(v, s, t, s.objects[t].keys, seen + {t});
      TraverseKeysSubscribes(v, s, t, s.objects[t].keys, seen + {t});
    }
  }

  /** The same for the loop over one object's keys. */
  lemma {:induction false} TraverseKeysCovers(v: Variant, s: State, t: Target, keys: seq<Key>, seen: set<Target>)
    requires v.deepReads && s.active.Some?
    ensures var w := TraverseKeys(v, s, t, keys, seen, true); Covered(s, w.state.bucket, s.active.value, w.seen - seen)
    decreases |s.objects.Keys - seen|, 1, |keys|
  {
    if keys != [] {
      var s1 := Track(v, s, t, keys[0]);
      var w := Traverse(v, s1, Read(s1, t, keys[0]), seen, true);
      TraverseKeysStep(v, s, t, keys, seen, true);
      TraverseCovers(v, s1, Read(s1, t, keys[0]), seen);
      SubsetCard(s.objects.Keys - w.seen, s.objects.Keys - seen);
      TraverseKeysCovers(v, w.state, t, keys[1..], w.seen);
      TraverseKeysKeeps(v, w.state, t, keys[1..], w.seen, true);
    }
  }

  /**
   * `traverse(proxy of t)` with an active effect: subscribers only grow, the
   * effect is subscribed to every key of t and, when nested reads are tracked,
   * to every key of every object reached.
   */
  lemma WalkSubscribes(v: Variant, s: State, t: Target)
    requires s.active.Some?
    ensures var w := Traverse(v, s, Ref(t), {}, true);
      && t in w.seen
      && KeepsSubscribers(s.bucket, w.state.bucket)
      && (t in s.objects ==> forall k :: k in s.objects[t].keys ==> s.active.value in Subscribers(w.state.bucket, t, k))
      && (v.deepReads ==> Covered(s, w.state.bucket, s.active.value, w.seen))
  {
    TraverseKeeps(v, s, Ref(t), {}, true);
    if t in s.objects {
      SubsetCard(s.objects.Keys - {t}, s.objects.Keys);
      TraverseKeysSubscribes(v, s, t, s.objects[t].keys, {t});
    }
    if v.deepReads {
      TraverseCovers(v, s, Ref(t), {});
    }
  }
}
