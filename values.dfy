/** JavaScript values and the object operations the sync layer relies on:
    property lookup, `Object.assign` / object spread, `Array.prototype.join`
    and `String.prototype.toUpperCase` (ASCII letters). */
module JsValues {

  datatype Option<+T> = None | Some(value: T)

  /** A value that is either one item or an ordered list of items
      (the `IOneOrMany` shape of payloads and sync results). */
  datatype OneOrMany<+T> = One(item: T) | Many(items: seq<T>)

  /** A JavaScript value as far as the model needs one. Numbers are integers:
      floating point is not modelled. An object is its own enumerable
      properties in insertion order. */
  datatype Value =
    | Undefined
    | Null
    | Bool(b: bool)
    | Num(n: int)
    | Str(s: string)
    | Arr(elems: seq<Value>)
    | Obj(props: seq<(string, Value)>)

  /** `Boolean(v)`: JavaScript truthiness. */
  predicate Truthy(v: Value) {
    match v
    case Undefined => false
    case Null => false
    case Bool(b) => b
    case Num(n) => n != 0
    case Str(s) => s != ""
    case Arr(_) => true
    case Obj(_) => true
  }

  /** True iff `o` has a property named `k`. */
  predicate HasKey<V>(o: seq<(string, V)>, k: string) {
    exists i :: 0 <= i < |o| && o[i].0 == k
  }

  /** A JavaScript object never has two properties of the same name. */
  predicate UniqueKeys<V>(o: seq<(string, V)>) {
    forall i, j :: 0 <= i < j < |o| ==> o[i].0 != o[j].0
  }

  /** `o[k]`: the value of the first property named `k`, if any. */
  function Lookup<V>(o: seq<(string, V)>, k: string): (r: Option<V>)
    ensures r.Some? <==> HasKey(o, k)
    ensures r.Some? ==> exists i :: 0 <= i < |o| && o[i] == (k, r.value)
  {
    if o == [] then None
    else if o[0].0 == k then Some(o[0].1)
    else
      var r := Lookup(o[1..], k);
      assert forall i :: 0 <= i < |o[1..]| ==> o[1..][i] == o[i + 1];
      assert HasKey(o, k) ==> HasKey(o[1..], k) by {
        if HasKey(o, k) {
          var i :| 0 <= i < |o| && o[i].0 == k;
          assert i > 0 && o[1..][i - 1].0 == k;
        }
      }
      r
  }

  /** `o[k] = v` on an object: an existing property keeps its position and
      takes the new value, a new property goes last. */
  function Put<V>(o: seq<(string, V)>, k: string, v: V): (r: seq<(string, V)>)
    ensures Lookup(r, k) == Some(v)
    ensures forall k' :: k' != k ==> Lookup(r, k') == Lookup(o, k')
    ensures |r| == if HasKey(o, k) then |o| else |o| + 1
  {
    if o == [] then [(k, v)]
    else if o[0].0 == k then [(k, v)] + o[1..]
    else
      var rest := Put(o[1..], k, v);
      assert HasKey(o, k) <==> HasKey(o[1..], k) by {
        if HasKey(o, k) {
          var i :| 0 <= i < |o| && o[i].0 == k;
          assert i > 0 && o[1..][i - 1].0 == k;
        }
        if HasKey(o[1..], k) {
          var i :| 0 <= i < |o[1..]| && o[1..][i].0 == k;
          assert o[i + 1].0 == k;
        }
      }
      [o[0]] + rest
  }

  /** `Object.assign({}, a, b)`, equivalently `{...a, ...b}`: the properties
      of `b` are written over those of `a`, in order. */
  function Assign<V>(a: seq<(string, V)>, b: seq<(string, V)>): (r: seq<(string, V)>)
    decreases |b|
  {
    if b == [] then a
    else Assign(Put(a, b[0].0, b[0].1), b[1..])
  }

  /** `o` without the properties named in `keys`, the others in order. */
  function Without<V>(o: seq<(string, V)>, keys: set<string>): (r: seq<(string, V)>)
    ensures forall k :: Lookup(r, k) == if k in keys then None else Lookup(o, k)
  {
    if o == [] then []
    else
      var rest := Without(o[1..], keys);
      if o[0].0 in keys then rest
      else
        assert ([o[0]] + rest)[1..] == rest;
        [o[0]] + rest
  }

  /** A non-empty object has a key iff its first property or the rest has it. */
  lemma HasKeyCons<V>(o: seq<(string, V)>, k: string)
    requires o != []
    ensures HasKey(o, k) <==> o[0].0 == k || HasKey(o[1..], k)
  {
    if HasKey(o, k) && o[0].0 != k {
      var i :| 0 <= i < |o| && o[i].0 == k;
      assert o[1..][i - 1].0 == k;
    }
    if HasKey(o[1..], k) {
      var i :| 0 <= i < |o[1..]| && o[1..][i].0 == k;
      assert o[i + 1].0 == k;
    }
  }

  /** On a key collision the second object wins; every other key keeps the
      value of the object that has it. */
  lemma {:induction false} AssignLookup<V>(a: seq<(string, V)>, b: seq<(string, V)>, k: string)
    requires UniqueKeys(b)
    ensures Lookup(Assign(a, b), k) == if HasKey(b, k) then Lookup(b, k) else Lookup(a, k)
    decreases |b|
  {
    if b != [] {
      var a' := Put(a, b[0].0, b[0].1);
      AssignLookup(a', b[1..], k);
      HasKeyCons(b, k);
    }
  }

  /** The same fact for every key at once. */
  lemma AssignLookupAll<V>(a: seq<(string, V)>, b: seq<(string, V)>)
    requires UniqueKeys(b)
    ensures forall k :: Lookup(Assign(a, b), k) == if HasKey(b, k) then Lookup(b, k) else Lookup(a, k)
  {
    forall k
      ensures Lookup(Assign(a, b), k) == if HasKey(b, k) then Lookup(b, k) else Lookup(a, k)
    {
      AssignLookup(a, b, k);
    }
  }

  /** The value `o[k]` reads, `undefined` for a missing property. */
  function Get(o: seq<(string, Value)>, k: string): (r: Value)
    ensures !HasKey(o, k) ==> r == Undefined
    ensures HasKey(o, k) ==> Some(r) == Lookup(o, k)
  {
    match Lookup(o, k)
    case Some(v) => v
    case None => Undefined
  }

  /** The properties of an object as a map (first occurrence of a key wins,
      as with `Lookup`). */
  function ToMap<V>(o: seq<(string, V)>): (m: map<string, V>)
    ensures forall k :: k in m <==> HasKey(o, k)
    ensures forall k :: k in m ==> Lookup(o, k) == Some(m[k])
  {
    map k | k in (set i | 0 <= i < |o| :: o[i].0) :: Lookup(o, k).value
  }

  /** `xs.join(sep)`. */
  function Join(xs: seq<string>, sep: string): (r: string)
    ensures |xs| == 1 ==> r == xs[0]
    ensures xs == [] ==> r == ""
  {
    if xs == [] then ""
    else if |xs| == 1 then xs[0]
    else xs[0] + sep + Join(xs[1..], sep)
  }

  /** Joining one more element adds the separator and the element at the end. */
  lemma {:induction false} JoinSnoc(xs: seq<string>, x: string, sep: string)
    requires xs != []
    ensures Join(xs + [x], sep) == Join(xs, sep) + sep + x
    decreases |xs|
  {
    if |xs| == 1 {
      assert xs + [x] == [xs[0], x];
    } else {
      assert (xs + [x])[1..] == xs[1..] + [x];
      JoinSnoc(xs[1..], x, sep);
    }
  }

  /** ASCII `toUpperCase` of one character. */
  function UpperChar(c: char): char {
    if 'a' <= c <= 'z' then (c as int - 'a' as int + 'A' as int) as char else c
  }

  /** `s.toUpperCase()` on ASCII letters. */
  function ToUpper(s: string): (r: string)
    ensures |r| == |s|
    ensures forall i :: 0 <= i < |s| ==> r[i] == UpperChar(s[i])
  {
    seq(|s|, i requires 0 <= i < |s| => UpperChar(s[i]))
  }

  /** Decimal text of a natural number, as a template literal prints it. */
  function NatText(n: nat): (r: string)
    ensures r != []
    ensures forall i :: 0 <= i < |r| ==> '0' <= r[i] <= '9'
  {
    var d := [('0' as int + n % 10) as char];
    if n < 10 then d else NatText(n / 10) + d
  }

  /** Decimal text of an integer. */
  function IntText(n: int): string {
    if n < 0 then "-" + NatText(-n) else NatText(n)
  }
}
