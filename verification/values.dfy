/** JavaScript values as the translation binder sees them: parameter
    snapshots, scope entries, token values and language records. */
module JsValues {

  datatype Option<+T> = None | Some(value: T)

  /** A JavaScript value. Numbers are integers here; an object is the map of
      its own enumerable properties. */
  datatype Value =
    | Undef
    | Null
    | Bool(b: bool)
    | Num(n: int)
    | Str(s: string)
    | Arr(items: seq<Value>)
    | Obj(fields: map<string, Value>)

  /** JavaScript truthiness, as used by `if (v)`, `v || w` and `!!v`:
      undefined, null, false, 0 and the empty string are the falsy values. */
  predicate Truthy(v: Value)
    ensures Truthy(v) <==> v !in {Undef, Null, Bool(false), Num(0), Str("")}
  {
    match v
    case Undef => false
    case Null => false
    case Bool(b) => b
    case Num(n) => n != 0
    case Str(s) => s != ""
    case Arr(_) => true
    case Obj(_) => true
  }

  /** `o[k]` on a property map: a missing property reads as undefined. */
  function Lookup(o: map<string, Value>, k: string): Value
  {
    if k in o then o[k] else Undef
  }

  predicate IsDigit(c: char)
  {
    '0' <= c <= '9'
  }

  function DigitChar(d: nat): (c: char)
    requires d < 10
    ensures IsDigit(c) && c as int - '0' as int == d
  {
    (d + '0' as int) as char
  }

  /** The property name JavaScript gives to array or string index `n`:
      its decimal numeral without leading zeros. */
  function IndexKey(n: nat): (s: string)
    ensures 1 <= |s|
    ensures n < 10 <==> |s| == 1
    ensures forall i :: 0 <= i < |s| ==> IsDigit(s[i])
  {
    if n < 10 then [DigitChar(n)] else IndexKey(n / 10) + [DigitChar(n % 10)]
  }

  /** Distinct indices have distinct property names. */
  lemma {:induction false} IndexKeyInjective(a: nat, b: nat)
    requires IndexKey(a) == IndexKey(b)
    ensures a == b
  {
    if 10 <= a && 10 <= b {
      var ka, kb := IndexKey(a), IndexKey(b);
      assert ka[|ka| - 1] == DigitChar(a % 10) && kb[|kb| - 1] == DigitChar(b % 10);
      assert IndexKey(a / 10) == ka[..|ka| - 1] == kb[..|kb| - 1] == IndexKey(b / 10);
      IndexKeyInjective(a / 10, b / 10);
    } else if a < 10 && b < 10 {
      assert IndexKey(a)[0] == DigitChar(a) && IndexKey(b)[0] == DigitChar(b);
    }
  }

  lemma IndexKeysInjective()
    ensures forall a: nat, b: nat {:trigger IndexKey(a), IndexKey(b)} :: IndexKey(a) == IndexKey(b) ==> a == b
  {
    forall a: nat, b: nat | IndexKey(a) == IndexKey(b)
      ensures a == b
    {
      IndexKeyInjective(a, b);
    }
  }

  /** The index properties of an array: `Object.keys(items)` with their values. */
  function ArrayEntries(items: seq<Value>): (m: map<string, Value>)
    ensures forall i :: 0 <= i < |items| ==> IndexKey(i) in m && m[IndexKey(i)] == items[i]
    ensures forall k :: k in m ==> exists i :: 0 <= i < |items| && k == IndexKey(i)
    ensures forall k :: k in m ==> 0 < |k| && IsDigit(k[0])
  {
    IndexKeysInjective();
    map i | 0 <= i < |items| :: IndexKey(i) := items[i]
  }

  /** The index properties of a string: one-character strings. */
  function StringEntries(s: string): (m: map<string, Value>)
    ensures forall i :: 0 <= i < |s| ==> IndexKey(i) in m && m[IndexKey(i)] == Str([s[i]])
    ensures forall k :: k in m ==> exists i :: 0 <= i < |s| && k == IndexKey(i)
    ensures forall k :: k in m ==> 0 < |k| && IsDigit(k[0])
  {
    IndexKeysInjective();
    map i | 0 <= i < |s| :: IndexKey(i) := Str([s[i]])
  }

  /** The own enumerable properties of a value with their values, as
      `Object.keys(v)` followed by `v[key]` sees them: the fields of an
      object, the indices of an array or a string, nothing for a number or a
      boolean. Null and undefined are never enumerated by the binder (they
      are replaced by `{}` first) and give no properties here. */
  function OwnEntries(v: Value): (m: map<string, Value>)
    ensures v.Obj? ==> m == v.fields
    ensures v.Arr? ==> m == ArrayEntries(v.items)
    ensures v.Str? ==> m == StringEntries(v.s)
    ensures !(v.Obj? || v.Arr? || v.Str?) ==> m == map[]
    ensures forall k :: k in m && !v.Obj? ==> 0 < |k| && IsDigit(k[0])
  {
    match v
    case Obj(f) => f
    case Arr(items) => ArrayEntries(items)
    case Str(s) => StringEntries(s)
    case _ => map[]
  }

  /** `v[k]` for a property of `v` the binder reads (`language.locale`,
      `language.right_to_left`): its own enumerable property, or undefined. */
  function Get(v: Value, k: string): Value
  {
    Lookup(OwnEntries(v), k)
  }

  /** `delete v[k]` for a property name that is not an index: removes the
      property from an object; any other value has no such own property and
      is left as it is. */
  function WithoutProperty(v: Value, k: string): (r: Value)
    requires 0 < |k| && !IsDigit(k[0])
    ensures Truthy(r) == Truthy(v)
    ensures Get(r, k) == Undef
    ensures v.Obj? ==> r.Obj? && r.fields.Keys == v.fields.Keys - {k}
    ensures !v.Obj? ==> r == v
    ensures forall j :: j != k ==> Get(r, j) == Get(v, j)
  {
    if v.Obj? then Obj(v.fields - {k}) else v
  }
}
