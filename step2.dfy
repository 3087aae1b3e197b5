/**
 * step2.js, the first stage of the engine: one global Set `bucket` for every
 * property. Any read through the proxy while an effect is set adds that
 * effect to the Set, whatever the key; every write stores the value and runs
 * every effect in the Set. `effect(fn)` makes `fn` the active effect and runs
 * it; nothing ever resets `activeEffect`. Each effect run is logged (the
 * `console.log` at the start of the demonstration's effect).
 */
module Step2 {
  import opened Values
  import opened Deps

  /** An effect body: a constant, a read `obj[key]`, two statements, or a write `obj[key] = rhs`. */
  datatype Body =
    | Const(value: Value)
    | ReadKey(key: Key)
    | Both(first: Body, second: Body)
    | Store(key: Key, rhs: Body)

  /** The global state of step2.js: the Set, `activeEffect`, the raw `data` object, the effects and the log. */
  datatype World = World(
    bucket: seq<EffectId>,
    active: Option<EffectId>,
    data: map<Key, Value>,
    effects: map<EffectId, Body>,
    log: seq<EffectId>,
    nextId: nat)

  datatype Got = Got(world: World, value: Value)

  datatype Made = Made(world: World, id: EffectId)

  function Start(data: map<Key, Value>): World
  {
    World([], None, data, map[], [], 0)
  }

  /** `target[key]`. */
  function Lookup(data: map<Key, Value>, k: Key): Value
  {
    if k in data then data[k] else Undefined
  }

  /** The Set holds each effect once and only effects handed out before `nextId`. */
  ghost predicate Valid(w: World)
  {
    && NoDup(w.bucket)
    && (forall i | 0 <= i < |w.bucket| :: w.bucket[i] < w.nextId)
    && (forall e | e in w.effects :: e < w.nextId)
    && (w.active.Some? ==> w.active.value < w.nextId)
  }

  /**
   * The get trap: with an active effect, `bucket.add(activeEffect)` whatever
   * the key (an effect already in the Set keeps its single entry); the raw
   * value is returned.
   */
  function Get(w: World, k: Key): (r: Got)
    ensures r.value == Lookup(w.data, k)
    ensures r.world == w.(bucket := r.world.bucket)
    ensures forall e :: e in r.world.bucket <==> e in w.bucket || (w.active.Some? && w.active.value == e)
    ensures |w.bucket| <= |r.world.bucket| <= |w.bucket| + 1 && r.world.bucket[..|w.bucket|] == w.bucket
    ensures Valid(w) ==> Valid(r.world)
  {
    var w1 := if w.active.Some? then w.(bucket := SetAdd(w.bucket, w.active.value)) else w;
    Got(w1, Lookup(w.data, k))
  }

  /** The set trap: store the value, then `bucket.forEach(fn => fn())`, whatever the key. */
  function Set(w: World, k: Key, x: Value, fuel: nat): (r: World)
    decreases fuel, 2
  {
    RunAll(w.(data := w.data[k := x]), 0, fuel)
  }

  /** `forEach` over the live Set from position i on: an effect added while it runs is visited too. */
  function RunAll(w: World, i: nat, fuel: nat): (r: World)
    decreases fuel, 1
  {
    if fuel == 0 || i >= |w.bucket| then w
    else RunAll(Run(w, w.bucket[i], fuel), i + 1, fuel - 1)
  }

  /** `fn()`: log the run and evaluate the body. */
  function Run(w: World, e: EffectId, fuel: nat): (r: World)
    decreases fuel, 0
  {
    if fuel == 0 || e !in w.effects then w
    else Eval(w.(log := w.log + [e]), w.effects[e], fuel - 1).world
  }

  function Eval(w: World, b: Body, fuel: nat): (r: Got)
    decreases fuel, 3, b
  {
    match b
    case Const(c) => Got(w, c)
    case ReadKey(k) => Get(w, k)
    case Both(a, c) => Eval(Eval(w, a, fuel).world, c, fuel)
    case Store(k, y) =>
      var g := Eval(w, y, fuel);
      Got(Set(g.world, k, g.value, fuel), g.value)
  }

  /** `effect(fn)`: `activeEffect = fn; fn()`. */
  function Effect(w: World, b: Body, fuel: nat): (r: Made)
    ensures r.id == w.nextId
  {
    var e := w.nextId;
    Made(Run(w.(effects := w.effects[e := b], active := Some(e), nextId := e + 1), e, fuel), e)
  }

  // ---------------------------------------------------------------------------
  // Properties

  /** A body that only reads. */
  predicate Quiet(b: Body)
  {
    match b
    case Const(_) => true
    case ReadKey(_) => true
    case Both(a, c) => Quiet(a) && Quiet(c)
    case Store(_, _) => false
  }

  /** Whether a body reads through the proxy at all. */
  function ReadsAny(b: Body): bool
  {
    match b
    case Const(_) => false
    case ReadKey(_) => true
    case Both(a, c) => ReadsAny(a) || ReadsAny(c)
    case Store(_, _) => true
  }

  /** The value of a body that only reads. */
  function QuietValue(data: map<Key, Value>, b: Body): Value
    requires Quiet(b)
  {
    match b
    case Const(c) => c
    case ReadKey(k) => Lookup(data, k)
    case Both(_, c) => QuietValue(data, c)
  }

  /**
   * A body that only reads computes its value and, if it reads anything,
   * leaves the active effect in the Set once; nothing else changes.
   */
  lemma {:induction false} EvalQuiet(w: World, b: Body, fuel: nat)
    requires Quiet(b)
    ensures var r := Eval(w, b, fuel);
      && r.value == QuietValue(w.data, b)
      && r.world == w.(bucket := if ReadsAny(b) && w.active.Some? then SetAdd(w.bucket, w.active.value) else w.bucket)
    decreases b
  {
    match b
    case Const(_) =>
    case ReadKey(_) =>
    case Both(a, c) =>
      EvalQuiet(w, a, fuel);
      var w1 := Eval(w, a, fuel).world;
      EvalQuiet(w1, c, fuel);
      if w.active.Some? {
        assert SetAdd(SetAdd(w.bucket, w.active.value), w.active.value) == SetAdd(w.bucket, w.active.value);
      }
  }

  /** An effect already active and in the Set: a run of a reading body only logs it. */
  ghost predicate Settled(w: World)
  {
    w.active.None? || w.active.value in w.bucket
  }

  lemma RunQuiet(w: World, e: EffectId, fuel: nat)
    requires fuel > 0 && e in w.effects && Quiet(w.effects[e]) && Settled(w)
    ensures Run(w, e, fuel) == w.(log := w.log + [e])
  {
    EvalQuiet(w.(log := w.log + [e]), w.effects[e], fuel - 1);
  }

  /** The live `forEach` from position i on, when every effect in the Set only reads. */
  lemma {:induction false} RunAllQuiet(w: World, i: nat, fuel: nat)
    requires i <= |w.bucket| && fuel >= |w.bucket| - i && Settled(w)
    requires forall j | i <= j < |w.bucket| :: w.bucket[j] in w.effects && Quiet(w.effects[w.bucket[j]])
    ensures RunAll(w, i, fuel) == w.(log := w.log + w.bucket[i..])
    decreases |w.bucket| - i
  {
    if i < |w.bucket| {
      var e := w.bucket[i];
      RunQuiet(w, e, fuel);
      var w1 := w.(log := w.log + [e]);
      RunAllQuiet(w1, i + 1, fuel - 1);
      assert w.bucket[i..] == [e] + w.bucket[i + 1..];
    }
  }

  /**
   * Every write runs every effect in the Set once, in insertion order, whatever
   * the key written; nothing but the written property and the log changes.
   */
  lemma WriteRunsAll(w: World, k: Key, x: Value, fuel: nat)
    requires fuel >= |w.bucket| && Settled(w)
    requires forall j | 0 <= j < |w.bucket| :: w.bucket[j] in w.effects && Quiet(w.effects[w.bucket[j]])
    ensures Set(w, k, x, fuel) == w.(data := w.data[k := x], log := w.log + w.bucket)
  {
    var w1 := w.(data := w.data[k := x]);
    RunAllQuiet(w1, 0, fuel);
    assert w1.bucket[0..] == w.bucket;
  }

  /**
   * `effect(fn)` with a reading body: the new effect becomes active, runs
   * once, and (if it reads) joins the end of the Set; the Set stays
   * duplicate-free.
   */
  lemma EffectOnce(w: World, b: Body, fuel: nat)
    requires Valid(w) && Quiet(b) && fuel > 0
    ensures var r := Effect(w, b, fuel);
      && r.world.log == w.log + [r.id]
      && r.world.active == Some(r.id)
      && r.world.bucket == (if ReadsAny(b) then w.bucket + [r.id] else w.bucket)
      && r.world.effects == w.effects[r.id := b]
      && r.world.data == w.data
      && Valid(r.world)
  {
    var e := w.nextId;
    var w1 := w.(effects := w.effects[e := b], active := Some(e), nextId := e + 1);
    EvalQuiet(w1.(log := w1.log + [e]), b, fuel - 1);
    assert e !in w.bucket;
  }

  /**
   * The demonstration of step2.js: an effect that reads only `text` runs again
   * when `notExist` is written, so it runs twice.
   */
  lemma NotExistReruns(fuel: nat)
    requires fuel > 0
    ensures var w0 := Start(map[Name("text") := Str("hello world")]);
      var m := Effect(w0, ReadKey(Name("text")), fuel);
      Set(m.world, Name("notExist"), Str("hello vue3"), fuel).log == [m.id, m.id]
  {
    var w0 := Start(map[Name("text") := Str("hello world")]);
    EffectOnce(w0, ReadKey(Name("text")), fuel);
    var m := Effect(w0, ReadKey(Name("text")), fuel);
    assert m.world.bucket == [m.id];
    WriteRunsAll(m.world, Name("notExist"), Str("hello vue3"), fuel);
  }
}

/** step2.js with its global variables as the fields of one object. */
module Step2Runtime {
  import opened Values
  import opened Deps
  import opened Step2

  class Engine {
    var bucket: seq<EffectId>
    var active: Option<EffectId>
    var data: map<Key, Value>
    var effects: map<EffectId, Body>
    var log: seq<EffectId>
    var nextId: nat

    function St(): World
      reads this
    {
      World(bucket, active, data, effects, log, nextId)
    }

    constructor (init: map<Key, Value>)
      ensures St() == Start(init)
    {
      bucket, active, data, effects, log, nextId := [], None, init, map[], [], 0;
    }

    /** The get trap. */
    method Get(k: Key) returns (x: Value)
      modifies this
      ensures Got(St(), x) == Step2.Get(old(St()), k)
    {
      if active.Some? {
        bucket := SetAdd(bucket, active.value);
      }
      x := Lookup(data, k);
    }

    /** The set trap. */
    method Set(k: Key, x: Value, fuel: nat)
      modifies this
      ensures St() == Step2.Set(old(St()), k, x, fuel)
      decreases fuel, 2
    {
      data := data[k := x];
      RunAll(fuel);
    }

    /** `bucket.forEach(fn => fn())`, over the live Set. */
    method RunAll(fuel: nat)
      modifies this
      ensures St() == Step2.RunAll(old(St()), 0, fuel)
      decreases fuel, 1
    {
      var i: nat := 0;
      var f: nat := fuel;
      while f > 0 && i < |bucket|
        invariant Step2.RunAll(St(), i, f) == Step2.RunAll(old(St()), 0, fuel)
        decreases f
      {
        Run(bucket[i], f);
        i := i + 1;
        f := f - 1;
      }
    }

    /** `fn()`. */
    method Run(e: EffectId, fuel: nat)
      modifies this
      ensures St() == Step2.Run(old(St()), e, fuel)
      decreases fuel, 0
    {
      if fuel == 0 || e !in effects {
        return;
      }
      log := log + [e];
      var _ := Eval(effects[e], fuel - 1);
    }

    method Eval(b: Body, fuel: nat) returns (x: Value)
      modifies this
      ensures Got(St(), x) == Step2.Eval(old(St()), b, fuel)
      decreases fuel, 3, b
    {
      match b
      case Const(c) =>
        x := c;
      case ReadKey(k) =>
        x := Get(k);
      case Both(a, c) =>
        var _ := Eval(a, fuel);
        x := Eval(c, fuel);
      case Store(k, y) =>
        x := Eval(y, fuel);
        Set(k, x, fuel);
    }

    /** `effect(fn)`. */
    method Effect(b: Body, fuel: nat) returns (e: EffectId)
      modifies this
      ensures Made(St(), e) == Step2.Effect(old(St()), b, fuel)
    {
      e := nextId;
      effects := effects[e := b];
      active := Some(e);
      nextId := e + 1;
      Run(e, fuel);
    }
  }
}
