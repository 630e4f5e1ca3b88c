/** JavaScript values as the schema resolver and the model layer see them.

    Objects are ordered lists of (key, value) entries: the list order is the
    order in which `Object.keys` and `for ... in` enumerate them, assigning an
    existing key keeps its position and assigning a new key appends it. A
    JavaScript object never holds one key twice; `DistinctKeys` states that. */
module Js {

  datatype Option<+T> = None | Some(value: T)

  /** Function values the model tells apart: the constructors a schema may
      name, any other named function, and the callback wrapper that a Model
      installs in front of a caller's callback. */
  datatype Fn =
    | NumberFn
    | StringFn
    | ArrayFn
    | ObjectFn
    | DateFn
    | ObjectIdFn
    | BooleanFn
    | Named(name: string)
    | Hydrating(callback: Fn, key: Option<string>)

  /** The `name` property of a function; the document-store driver's
      identifier constructor is called `ObjectID`. */
  function FnName(f: Fn): string {
    match f
    case NumberFn => "Number"
    case StringFn => "String"
    case ArrayFn => "Array"
    case ObjectFn => "Object"
    case DateFn => "Date"
    case ObjectIdFn => "ObjectID"
    case BooleanFn => "Boolean"
    case Named(n) => n
    case Hydrating(_, _) => ""
  }

  /** What an object was built by: an object literal (or one without a
      prototype), a Model constructor, or some other class. */
  datatype Class = Plain | Document | Instance(name: string)

  datatype Value =
    | Undefined
    | Null
    | Bool(b: bool)
    | Num(n: int)
    | Str(s: string)
    | Func(f: Fn)
    | Arr(items: seq<Value>)
    | Obj(cls: Class, entries: seq<(string, Value)>)

  type Entries = seq<(string, Value)>

  /** JavaScript truthiness (`!v` is `!Truthy(v)`). */
  predicate Truthy(v: Value) {
    match v
    case Undefined => false
    case Null => false
    case Bool(b) => b
    case Num(n) => n != 0
    case Str(s) => s != ""
    case _ => true
  }

  /** `null == v` */
  predicate Nullish(v: Value) {
    v.Undefined? || v.Null?
  }

  /** `_.isObject(v)`: objects, arrays and functions. */
  predicate IsObject(v: Value) {
    v.Func? || v.Arr? || v.Obj?
  }

  function Keys(m: Entries): (ks: seq<string>)
    ensures |ks| == |m|
  {
    if m == [] then [] else [m[0].0] + Keys(m[1..])
  }

  lemma {:induction false} KeysAt(m: Entries, i: nat)
    requires i < |m|
    ensures Keys(m)[i] == m[i].0
  {
    if i > 0 {
      KeysAt(m[1..], i - 1);
    }
  }

  lemma KeysCons(e: (string, Value), m: Entries)
    ensures Keys([e] + m) == [e.0] + Keys(m)
  {
    assert ([e] + m)[1..] == m;
  }

  lemma {:induction false} KeysAppend(m: Entries, n: Entries)
    ensures Keys(m + n) == Keys(m) + Keys(n)
    decreases |m|
  {
    if m == [] {
      assert m + n == n;
    } else {
      assert (m + n)[1..] == m[1..] + n;
      KeysAppend(m[1..], n);
    }
  }

  ghost predicate DistinctKeys(m: Entries) {
    forall i, j :: 0 <= i < j < |m| ==> m[i].0 != m[j].0
  }

  /** `m[k]`, `undefined` when `k` is not a key of `m`. */
  function Get(m: Entries, k: string): (v: Value)
    ensures k !in Keys(m) ==> v == Undefined
  {
    if m == [] then Undefined
    else if m[0].0 == k then m[0].1
    else Get(m[1..], k)
  }

  /** `m[k] = v` */
  function Put(m: Entries, k: string, v: Value): (r: Entries)
    ensures Get(r, k) == v
    ensures forall j :: j != k ==> Get(r, j) == Get(m, j)
  {
    if m == [] then [(k, v)]
    else if m[0].0 == k then [(k, v)] + m[1..]
    else [m[0]] + Put(m[1..], k, v)
  }

  /** Assigning keeps the key order and appends a new key. */
  lemma {:induction false} PutKeys(m: Entries, k: string, v: Value)
    ensures Keys(Put(m, k, v)) == if k in Keys(m) then Keys(m) else Keys(m) + [k]
  {
    if m != [] {
      if m[0].0 == k {
        assert Keys([(k, v)] + m[1..]) == [k] + Keys(m[1..]);
      } else {
        PutKeys(m[1..], k, v);
        assert Keys([m[0]] + Put(m[1..], k, v)) == [m[0].0] + Keys(Put(m[1..], k, v));
      }
    }
  }

  /** Assignment leaves every entry under another key where it was. */
  lemma {:induction false} PutOther(m: Entries, k: string, v: Value, i: nat)
    requires i < |m| && m[i].0 != k
    ensures i < |Put(m, k, v)| && Put(m, k, v)[i] == m[i]
  {
    if i > 0 && m[0].0 != k {
      PutOther(m[1..], k, v, i - 1);
    }
  }

  /** Assigning never gives an object a key twice. */
  lemma PutDistinct(m: Entries, k: string, v: Value)
    requires DistinctKeys(m)
    ensures DistinctKeys(Put(m, k, v))
  {
    var r := Put(m, k, v);
    PutKeys(m, k, v);
    forall i, j | 0 <= i < j < |r| ensures r[i].0 != r[j].0 {
      KeysAt(r, i);
      KeysAt(r, j);
      if j < |m| {
        KeysAt(m, i);
        KeysAt(m, j);
      } else {
        assert Keys(r)[j] == k && k !in Keys(m);
        KeysAt(m, i);
      }
    }
  }

  /** Assigning a key an object does not have appends it. */
  lemma {:induction false} PutAppend(m: Entries, k: string, v: Value)
    requires k !in Keys(m)
    ensures Put(m, k, v) == m + [(k, v)]
  {
    if m != [] {
      assert Keys(m) == [m[0].0] + Keys(m[1..]);
      PutAppend(m[1..], k, v);
      assert [m[0]] + (m[1..] + [(k, v)]) == m + [(k, v)];
    }
  }

  /** Reading and assigning the first key of an object. */
  lemma GetHead(k: string, v: Value, rest: Entries)
    ensures Get([(k, v)] + rest, k) == v
  {
  }

  lemma PutHead(k: string, v: Value, rest: Entries, w: Value)
    ensures Put([(k, v)] + rest, k, w) == [(k, w)] + rest
  {
    assert ([(k, v)] + rest)[1..] == rest;
  }

  /** Two lists with the same keys in the same order are both objects or
      neither is. */
  lemma KeysDistinct(m: Entries, m': Entries)
    requires Keys(m) == Keys(m') && DistinctKeys(m)
    ensures DistinctKeys(m')
  {
    forall i, j | 0 <= i < j < |m'| ensures m'[i].0 != m'[j].0 {
      KeysAt(m, i); KeysAt(m, j); KeysAt(m', i); KeysAt(m', j);
    }
  }

  /** A key is in `Keys(m)` exactly when some entry carries it. */
  lemma KeysMember(m: Entries, k: string)
    ensures k in Keys(m) <==> exists i :: 0 <= i < |m| && m[i].0 == k
  {
    if k in Keys(m) {
      var i :| 0 <= i < |m| && Keys(m)[i] == k;
      KeysAt(m, i);
    }
    if i :| 0 <= i < |m| && m[i].0 == k {
      KeysAt(m, i);
    }
  }

  /** The value at a position of a JavaScript object is what `Get` finds. */
  lemma {:induction false} GetAt(m: Entries, i: nat)
    requires DistinctKeys(m) && i < |m|
    ensures Get(m, m[i].0) == m[i].1
  {
    if i > 0 {
      assert m[1..][i - 1] == m[i];
      GetAt(m[1..], i - 1);
    }
  }

  /** In an object, the entry written between two others is what `Get` finds. */
  lemma GetMiddle(a: Entries, k: string, v: Value, b: Entries)
    requires DistinctKeys(a + [(k, v)] + b)
    ensures Get(a + [(k, v)] + b, k) == v
  {
    var m := a + [(k, v)] + b;
    assert m[|a|] == (k, v);
    GetAt(m, |a|);
  }

  /** Looking a key up along a chain of objects, nearest first: the first
      object that has the key answers. */
  lemma {:induction false} GetAppend(a: Entries, b: Entries, k: string)
    ensures Get(a + b, k) == if k in Keys(a) then Get(a, k) else Get(b, k)
    decreases |a|
  {
    if a == [] {
      assert a + b == b;
    } else {
      assert (a + b)[0] == a[0] && (a + b)[1..] == a[1..] + b;
      assert Keys(a) == [a[0].0] + Keys(a[1..]);
      GetAppend(a[1..], b, k);
    }
  }

  /** The first entry carrying a key is what `Get` finds. */
  lemma {:induction false} GetFirst(m: Entries, i: nat)
    requires i < |m| && forall j :: 0 <= j < i ==> m[j].0 != m[i].0
    ensures Get(m, m[i].0) == m[i].1
  {
    if i > 0 {
      assert m[1..][i - 1] == m[i];
      GetFirst(m[1..], i - 1);
    }
  }

  /** `v[k]` for a value `v` that is not null: own properties of objects;
      every other value is read as having no property of that name. */
  function Prop(v: Value, k: string): Value {
    if v.Obj? then Get(v.entries, k) else Undefined
  }

  /** `v.type` */
  function TypeOf(v: Value): Value {
    Prop(v, "type")
  }

  /** A size measure that decreases from an object to each of its entries. */
  function Size(v: Value): (n: nat)
    ensures n >= 1
    decreases v
  {
    if v.Obj? then 1 + SizeFrom(v, 0) else 1
  }

  function SizeFrom(v: Value, i: nat): nat
    requires v.Obj? && i <= |v.entries|
    decreases v, |v.entries| - i
  {
    if i == |v.entries| then 0 else Size(v.entries[i].1) + SizeFrom(v, i + 1)
  }

  /** The size of an entry list, as the entries of an object. */
  function EntriesSize(es: Entries): nat {
    SizeFrom(Obj(Plain, es), 0)
  }

  lemma {:induction false} SizeFromShift(es: Entries, c: Class, d: Class, i: nat)
    requires i <= |es|
    ensures SizeFrom(Obj(c, es), i) == SizeFrom(Obj(d, es[i..]), 0)
    decreases |es| - i
  {
    if i < |es| {
      SizeFromShift(es, c, d, i + 1);
      SizeFromShift(es[i..], d, d, 1);
      assert es[i..][1..] == es[i + 1..];
    }
  }

  /** An object is larger than its entries, */
  lemma ObjSize(v: Value)
    requires v.Obj?
    ensures Size(v) == 1 + EntriesSize(v.entries)
  {
    SizeFromShift(v.entries, v.cls, Plain, 0);
    assert v.entries[0..] == v.entries;
  }

  /** and an entry list is its first value plus the rest. */
  lemma EntriesSizeUnfold(es: Entries)
    requires es != []
    ensures EntriesSize(es) == Size(es[0].1) + EntriesSize(es[1..])
  {
    SizeFromShift(es, Plain, Plain, 1);
  }

  /** Each entry is at most as large as the list it is in. */
  lemma {:induction false} EntriesSizeAt(es: Entries, i: nat)
    requires i < |es|
    ensures Size(es[i].1) <= EntriesSize(es)
  {
    EntriesSizeUnfold(es);
    if i > 0 {
      EntriesSizeAt(es[1..], i - 1);
    }
  }
}
