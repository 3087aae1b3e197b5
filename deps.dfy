/**
 * The dependency store: `bucket` maps a target to its depsMap, and a depsMap
 * maps a key to the Set of effects subscribed to that (target, key) pair.
 * A JavaScript Set is kept as a duplicate-free sequence in insertion order,
 * and a Map as its key order plus a finite map.
 */
module Deps {
  import opened Values

  type EffectId = nat

  /**
   * A subscriber Set, named by the (target, key) pair it was created for:
   * `track` creates a Set only when the pair has none, and nothing ever removes
   * one, so the pair determines the Set object.
   */
  datatype Dep = Dep(target: Target, key: Key)

  /** A target's `Map` from keys to subscriber Sets, with its insertion order. */
  datatype DepsMap = DepsMap(order: seq<Key>, sets: map<Key, seq<EffectId>>)

  const EmptyDepsMap: DepsMap := DepsMap([], map[])

  type Bucket = map<Target, DepsMap>

  predicate NoDup<T(==)>(s: seq<T>)
  {
    forall i, j :: 0 <= i < j < |s| ==> s[i] != s[j]
  }

  /** Every Map's key order lists its keys once each, and every Set is duplicate-free. */
  ghost predicate WellFormed(b: Bucket)
  {
    forall t | t in b :: WellFormedMap(b[t])
  }

  ghost predicate WellFormedMap(dm: DepsMap)
  {
    && NoDup(dm.order)
    && (forall k :: k in dm.sets <==> k in dm.order)
    && (forall k | k in dm.sets :: NoDup(dm.sets[k]))
  }

  /** Whether the Set for (t, k) exists. */
  predicate HasSet(b: Bucket, t: Target, k: Key)
  {
    t in b && k in b[t].sets
  }

  /** The members of bucket[t][k], in insertion order; empty when the Map or the Set is missing. */
  function Subscribers(b: Bucket, t: Target, k: Key): seq<EffectId>
  {
    if HasSet(b, t, k) then b[t].sets[k] else []
  }

  /** `set.add(e)`: a member already present keeps its place, a new one goes last. */
  function SetAdd(s: seq<EffectId>, e: EffectId): (r: seq<EffectId>)
    ensures forall x :: x in r <==> x in s || x == e
    ensures NoDup(s) ==> NoDup(r)
    ensures |s| <= |r| && r[..|s|] == s
  {
    if e in s then s else s + [e]
  }

  /** `set.delete(e)`: the other members keep their order. */
  function SetDelete(s: seq<EffectId>, e: EffectId): (r: seq<EffectId>)
    ensures forall x :: x in r <==> x in s && x != e
    ensures NoDup(s) ==> NoDup(r)
    ensures e !in s ==> r == s
    ensures |r| <= |s|
  {
    if s == [] then []
    else if s[0] == e then SetDelete(s[1..], e)
    else
      var rest := SetDelete(s[1..], e);
      assert NoDup(s) ==> s[0] !in rest && NoDup(s[1..]);
      [s[0]] + rest
  }

  /**
   * The store half of `track`: create the depsMap and the Set of (t, k) when
   * missing, then add e to that Set.
   */
  function AddSubscriber(b: Bucket, t: Target, k: Key, e: EffectId): (r: Bucket)
    ensures HasSet(r, t, k) && e in Subscribers(r, t, k)
    ensures forall t', k' :: Subscribers(r, t', k') ==
              if t' == t && k' == k then SetAdd(Subscribers(b, t, k), e) else Subscribers(b, t', k')
    ensures forall t', k' :: HasSet(r, t', k') <==> HasSet(b, t', k') || (t' == t && k' == k)
    ensures r.Keys == b.Keys + {t}
    ensures t in b ==> r[t].order == (if k in b[t].sets then b[t].order else b[t].order + [k])
  {
    var dm := if t in b then b[t] else EmptyDepsMap;
    var dm1 := if k in dm.sets then dm else DepsMap(dm.order + [k], dm.sets[k := []]);
    b[t := DepsMap(dm1.order, dm1.sets[k := SetAdd(dm1.sets[k], e)])]
  }

  /** Adding a subscriber keeps every Map's key order and every Set duplicate-free. */
  lemma AddSubscriberWellFormed(b: Bucket, t: Target, k: Key, e: EffectId)
    requires WellFormed(b)
    ensures WellFormed(AddSubscriber(b, t, k, e))
  {
    var dm := if t in b then b[t] else EmptyDepsMap;
    AddToMapWellFormed(dm, k, e);
    var dm1 := if k in dm.sets then dm else DepsMap(dm.order + [k], dm.sets[k := []]);
    var dm2 := DepsMap(dm1.order, dm1.sets[k := SetAdd(dm1.sets[k], e)]);
    var r := AddSubscriber(b, t, k, e);
    assert r == b[t := dm2];
    forall t' | t' in r ensures WellFormedMap(r[t']) {
      if t' != t {
        assert r[t'] == b[t'];
      }
    }
  }

  /** The same for the one Map that changes. */
  lemma AddToMapWellFormed(dm: DepsMap, k: Key, e: EffectId)
    requires WellFormedMap(dm)
    ensures var dm1 := if k in dm.sets then dm else DepsMap(dm.order + [k], dm.sets[k := []]);
      WellFormedMap(DepsMap(dm1.order, dm1.sets[k := SetAdd(dm1.sets[k], e)]))
  {
    var dm1 := if k in dm.sets then dm else DepsMap(dm.order + [k], dm.sets[k := []]);
    if k !in dm.sets {
      assert k !in dm.order;
      assert NoDup(dm1.order) by {
        forall i, j | 0 <= i < j < |dm1.order| ensures dm1.order[i] != dm1.order[j] {
          if j == |dm.order| {
            assert dm1.order[i] == dm.order[i];
          }
        }
      }
    }
    assert WellFormedMap(dm1);
  }

  /** `dep.delete(e)` on the existing Set named by d; the Set itself stays in its Map. */
  function RemoveSubscriber(b: Bucket, d: Dep, e: EffectId): (r: Bucket)
    ensures forall t, k :: Subscribers(r, t, k) ==
              if Dep(t, k) == d then SetDelete(Subscribers(b, t, k), e) else Subscribers(b, t, k)
    ensures forall t, k :: HasSet(r, t, k) <==> HasSet(b, t, k)
    ensures r.Keys == b.Keys
    ensures forall t | t in b :: r[t].order == b[t].order
    ensures WellFormed(b) ==> WellFormed(r)
  {
    if HasSet(b, d.target, d.key) then
      var dm := b[d.target];
      var dm' := DepsMap(dm.order, dm.sets[d.key := SetDelete(dm.sets[d.key], e)]);
      RemoveFromMapWellFormed(dm, d.key, e);
      b[d.target := dm']
    else b
  }

  /** Deleting from one existing Set keeps its Map well formed. */
  lemma RemoveFromMapWellFormed(dm: DepsMap, k: Key, e: EffectId)
    requires k in dm.sets
    ensures WellFormedMap(dm) ==> WellFormedMap(DepsMap(dm.order, dm.sets[k := SetDelete(dm.sets[k], e)]))
  {
  }

  /**
   * The store half of `cleanup`: delete e from every Set of its reverse index,
   * in the index's order.
   */
  function RemoveFromAll(b: Bucket, ds: seq<Dep>, e: EffectId): (r: Bucket)
    ensures forall t, k :: Subscribers(r, t, k) ==
              if Dep(t, k) in ds then SetDelete(Subscribers(b, t, k), e) else Subscribers(b, t, k)
    ensures forall t, k :: HasSet(r, t, k) <==> HasSet(b, t, k)
    ensures r.Keys == b.Keys
    ensures forall t | t in b :: r[t].order == b[t].order
    ensures WellFormed(b) ==> WellFormed(r)
    decreases |ds|
  {
    if ds == [] then b
    else
      var b1 := RemoveSubscriber(b, ds[0], e);
      var r := RemoveFromAll(b1, ds[1..], e);
      assert forall t, k :: Dep(t, k) in ds <==> Dep(t, k) == ds[0] || Dep(t, k) in ds[1..];
      SetDeleteTwice(b, ds[0], e);
      r
  }

  /** Deleting the same member twice is deleting it once. */
  lemma SetDeleteTwice(b: Bucket, d: Dep, e: EffectId)
    ensures SetDelete(SetDelete(Subscribers(b, d.target, d.key), e), e) == SetDelete(Subscribers(b, d.target, d.key), e)
  {
    var s := SetDelete(Subscribers(b, d.target, d.key), e);
    assert e !in s;
  }
}
