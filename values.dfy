/**
 * Values, property keys and host objects as the reactive engine sees them,
 * together with the pure part of the proxy's set handler: the SET/ADD
 * classification of a write and the NaN-aware "has the value changed" test.
 */
module Values {

  datatype Option<T> = None | Some(value: T)

  /** The outcome of an operation that can throw, as JavaScript's TypeError. */
  datatype Outcome = Done | Thrown(reason: string)

  /** A value, or the TypeError that computing it throws. */
  datatype Result<T> = Success(value: T) | Failure(reason: string)

  /**
   * The identity of a tracked object. `Object(id)` is a plain object or array
   * handed to the engine by the interception layer; `Cell(c)` is the object
   * that a computed value exposes (its `value` is tracked and triggered by hand).
   */
  datatype Target = Object(id: nat) | Cell(computed: nat)

  /**
   * A property key. Array indices (canonical numeric names such as "0") are
   * `Index`; every other name, "length" included, is `Name`.
   */
  datatype Key = Name(name: string) | Index(index: nat)

  const LengthKey: Key := Name("length")
  const ValueKey: Key := Name("value")

  /** A JavaScript value; `Ref` is a reference to an object by identity. */
  datatype Value =
    | Undefined
    | Null
    | Bool(b: bool)
    | Num(n: int)
    | NaN
    | Str(s: string)
    | Ref(target: Target)

  /** JavaScript `===`: identity on references, and `NaN` is not equal to itself. */
  predicate StrictEquals(a: Value, b: Value)
  {
    a != NaN && a == b
  }

  /**
   * The changed test of the set handler, `oldVal !== newVal && (oldVal === oldVal
   * || newVal === newVal)`: a write notifies exactly when the two values differ,
   * a NaN replaced by a NaN counting as no change.
   */
  function HasChanged(oldVal: Value, newVal: Value): (r: bool)
    ensures r <==> oldVal != newVal
    ensures oldVal == NaN && newVal == NaN ==> !r
  {
    !StrictEquals(oldVal, newVal) && (StrictEquals(oldVal, oldVal) || StrictEquals(newVal, newVal))
  }

  /** `Number(key)` for a property key; `None` stands for NaN. */
  function KeyNumber(k: Key): Option<int>
  {
    match k
    case Index(i) => Some(i)
    case Name(_) => None
  }

  /** `Number(v)` for the values the model uses as lengths; `None` stands for NaN. */
  function ToNumber(v: Value): Option<int>
  {
    match v
    case Num(n) => Some(n)
    case Null => Some(0)
    case Bool(b) => Some(if b then 1 else 0)
    case _ => None
  }

  /**
   * The relational test `key >= newVal` that the length fan-out applies to the
   * keys of a depsMap: JavaScript converts both sides to numbers, so only index
   * keys can satisfy it ("length" and other names become NaN).
   */
  predicate KeyAtOrAbove(k: Key, v: Value)
  {
    KeyNumber(k).Some? && ToNumber(v).Some? && KeyNumber(k).value >= ToNumber(v).value
  }

  /**
   * A host object: whether it is an array, its own keys in insertion order
   * (the order of `for ... in`), and its properties.
   */
  datatype JsObject = JsObject(isArray: bool, keys: seq<Key>, props: map<Key, Value>)

  const EmptyObject: JsObject := JsObject(false, [], map[])

  /** `target[key]`: a missing property reads as `undefined`. */
  function Prop(o: JsObject, k: Key): Value
  {
    if k in o.props then o.props[k] else Undefined
  }

  /** `target.length` of an array. */
  function ArrayLength(o: JsObject): nat
  {
    match Prop(o, LengthKey)
    case Num(n) => if n >= 0 then n else 0
    case _ => 0
  }

  /** The kind of write passed to `trigger`. */
  datatype TriggerType = SetOp | AddOp

  /**
   * The classification of a write in the set handler: on an array, a key whose
   * number is below the length replaces an element (SET) and anything else
   * adds (ADD); on a plain object, an own key is SET and a new key is ADD.
   */
  function Classify(o: JsObject, k: Key): (r: TriggerType)
    ensures o.isArray ==> (r == SetOp <==> k.Index? && k.index < ArrayLength(o))
    ensures !o.isArray ==> (r == SetOp <==> k in o.props)
    ensures o.isArray && k == LengthKey ==> r == AddOp
  {
    if o.isArray then
      (if KeyNumber(k).Some? && KeyNumber(k).value < ArrayLength(o) then SetOp else AddOp)
    else
      (if k in o.props then SetOp else AddOp)
  }

  /** The index keys of `keys` that stay in range of a truncated array of length `n`. */
  function KeepBelow(keys: seq<Key>, n: nat): (r: seq<Key>)
    ensures forall k :: k in r <==> k in keys && !(k.Index? && k.index >= n)
  {
    if keys == [] then []
    else (if keys[0].Index? && keys[0].index >= n then [] else [keys[0]]) + KeepBelow(keys[1..], n)
  }

  /**
   * `Reflect.set(target, key, newVal)` on the raw object: the property takes the
   * new value and a new key joins the key order; on an array an index at or past
   * the end grows the length, and a numeric length write drops the elements at
   * or above the new length. An array's `length` is never enumerable, so it
   * never joins the `for ... in` order.
   */
  function SetProperty(o: JsObject, k: Key, v: Value): (r: JsObject)
    ensures r.isArray == o.isArray
    ensures Prop(r, k) == v
    ensures !o.isArray ==> r.props == o.props[k := v]
    ensures forall k' :: k' in r.keys ==> k' in o.keys || k' == k
    ensures o.isArray ==> (LengthKey in r.keys <==> LengthKey in o.keys)
    ensures forall k' :: k' != k && k' != LengthKey && !(o.isArray && k == LengthKey && v.Num? && k'.Index? && k'.index >= v.n)
              ==> Prop(r, k') == Prop(o, k')
  {
    var keys := if k in o.props || (o.isArray && k == LengthKey) then o.keys else o.keys + [k];
    var props := o.props[k := v];
    if o.isArray && k.Index? && k.index >= ArrayLength(o) && k != LengthKey then
      JsObject(true, keys, props[LengthKey := Num(k.index + 1)])
    else if o.isArray && k == LengthKey && v.Num? && v.n >= 0 then
      var n: nat := v.n;
      var kept := KeepBelow(keys, n);
      JsObject(true, kept, map k' | k' in props && !(k'.Index? && k'.index >= n) :: props[k'])
    else
      JsObject(o.isArray, keys, props)
  }
}
