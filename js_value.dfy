/**
 * The JavaScript values that plugin settings are made of, as the settings
 * store sees them: through `typeof`, through `for…in` and through property
 * reads and writes `target[key]`.
 *
 * An array is modelled by its own enumerable properties, which are its
 * elements keyed by their decimal index strings ("0", "1", ...). That is
 * exactly what `for…in` enumerates and what `target[key] = v` writes, so an
 * object patch written onto an array, or an array patch written onto an
 * object, behaves as in JavaScript. `ArrayOf` builds the array of a sequence.
 */
module JsValue {
  import Decimal

  datatype Value =
    | Null
    | Bool(b: bool)
    | Num(n: real)
    | Str(s: string)
    | Arr(items: map<string, Value>)
    | Obj(fields: map<string, Value>)

  /** `typeof v === "object"`: true of null, arrays and plain objects. */
  predicate IsObjectTyped(v: Value)
  {
    v.Null? || v.Arr? || v.Obj?
  }

  /** A value that has properties of its own that can be written. */
  predicate IsContainer(v: Value)
  {
    v.Arr? || v.Obj?
  }

  const EmptyObject: Value := Obj(map[])

  function Props(v: Value): map<string, Value>
    requires IsContainer(v)
  {
    if v.Arr? then v.items else v.fields
  }

  /** The container of the same kind as `v` whose properties are `m`. */
  function WithProps(v: Value, m: map<string, Value>): (r: Value)
    requires IsContainer(v)
    ensures IsContainer(r) && r.Obj? == v.Obj? && Props(r) == m
  {
    if v.Arr? then Arr(m) else Obj(m)
  }

  /** The property name of the array element at index `i`. */
  function IndexKey(i: nat): string
  {
    Decimal.NatToString(i)
  }

  /** What `for…in` enumerates on a string, with the value read at each key. */
  function StringEntries(s: string): map<string, Value>
  {
    Decimal.NatToStringIsInjective();
    map i | 0 <= i < |s| :: IndexKey(i) := Str([s[i]])
  }

  /**
   * A string enumerates one property per index, and that property holds the
   * one-character string at its index.
   */
  lemma StringEntriesByIndex(s: string)
    ensures forall i :: 0 <= i < |s| ==>
      IndexKey(i) in StringEntries(s) && StringEntries(s)[IndexKey(i)] == Str([s[i]])
    ensures forall k :: k in StringEntries(s) ==> exists i :: 0 <= i < |s| && k == IndexKey(i)
  {
    Decimal.NatToStringIsInjective();
  }

  /**
   * What `for (const key in v)` enumerates, with `v[key]` for each key:
   * the own properties of an array or object, the one-character strings of
   * a string by index, and nothing at all for null, booleans and numbers.
   */
  function Entries(v: Value): (r: map<string, Value>)
    ensures IsContainer(v) ==> r == Props(v)
    ensures v.Null? || v.Bool? || v.Num? ==> r == map[]
    ensures v.Str? ==> r == StringEntries(v.s)
    ensures !IsContainer(v) ==> forall k :: k in r ==> r[k].Str?
  {
    match v
    case Obj(m) => m
    case Arr(m) => m
    case Str(s) => StringEntries(s)
    case _ => map[]
  }

  /** The array whose elements are `s`, in order. */
  function ArrayOf(s: seq<Value>): (r: Value)
    ensures r.Arr?
    ensures forall i :: 0 <= i < |s| ==> IndexKey(i) in r.items && r.items[IndexKey(i)] == s[i]
    ensures forall k :: k in r.items ==> exists i :: 0 <= i < |s| && k == IndexKey(i)
  {
    Decimal.NatToStringIsInjective();
    Arr(map i | 0 <= i < |s| :: IndexKey(i) := s[i])
  }

  /** Two containers of one kind with the same properties are the same value. */
  lemma ContainerExtensionality(a: Value, b: Value)
    requires IsContainer(a) && IsContainer(b) && a.Obj? == b.Obj?
    requires Props(a) == Props(b)
    ensures a == b
  {
  }
}
