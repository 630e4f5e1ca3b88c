/** The schema path resolver of lib/schema.js as pure functions: how one
    declared value is classified and resolved, and the walk over a
    declaration object that flattens it into a table from dotted path to
    resolved descriptor. The imperative code in module Schemas is proved to
    compute exactly these functions. */
module SchemaPaths {
  import opened Js

  /** Path names that are members of Model instances and may not name a leaf. */
  const Reserved: seq<string> := ["_model", "_schema", "save", "remove", "reset", "toJSON"]

  /** The tags a resolved descriptor's `type` can take. */
  const Vocabulary: set<string> := {"String", "Number", "Array", "Object", "Date", "ObjectID"}

  datatype SchemaError =
    | InvalidValue(path: string)  // a TypeError: the declared value is null or undefined
    | ReservedPath(path: string)  // an Error: the leaf path is a reserved name

  /** The constructors the resolver recognises. */
  predicate IsPrimitive(t: Value) {
    t.Func? && t.f in [NumberFn, StringFn, ArrayFn, ObjectFn, DateFn, ObjectIdFn]
  }

  /** `v.constructor` for an object `v`: its own `constructor` property when
      it has one, otherwise the constructor of its class (an object literal's
      is `Object`, a Model instance's the Model class). */
  function ConstructorOf(v: Value): Value
    requires v.Obj?
  {
    if "constructor" in Keys(v.entries) then Get(v.entries, "constructor")
    else match v.cls
      case Plain => Func(ObjectFn)
      case Document => Func(Named("Model"))
      case Instance(name) => Func(Named(name))
  }

  /** `c.name`: a function's name, an object's own `name` property; other
      values have none. */
  function NameOf(c: Value): Value {
    if c.Func? then Str(FnName(c.f)) else Prop(c, "name")
  }

  /** `!v.constructor || 'Object' == v.constructor.name` for an object `v`;
      arrays and functions have the constructors Array and Function. */
  predicate ConstructorIsObject(v: Value) {
    v.Obj? && (!Truthy(ConstructorOf(v)) || NameOf(ConstructorOf(v)) == Str("Object"))
  }

  /** A plain object that is not a `{type: ...}` descriptor: either it has no
      truthy `type`, or its `type` has a truthy `type` of its own. */
  predicate Expands(v: Value) {
    IsObject(v) && ConstructorIsObject(v) && (!Truthy(TypeOf(v)) || Truthy(TypeOf(TypeOf(v))))
  }

  /** A declared value whose keys become deeper paths. Every other non-null
      value is a leaf; an empty plain object is a leaf, and so is an object
      whose `type` is a constructor or a non-empty string. */
  predicate IsBranch(v: Value)
    ensures IsBranch(v) ==> v.Obj? && |v.entries| > 0 && !IsPrimitive(TypeOf(v))
    ensures IsBranch(v) && TypeOf(v).Str? ==> TypeOf(v).s == ""
  {
    Expands(v) && |v.entries| > 0
  }

  /** An object whose own `constructor` is truthy and not named `Object` is a
      leaf; a falsy own `constructor` decides nothing. */
  lemma OwnConstructorLeaf(v: Value)
    requires v.Obj? && "constructor" in Keys(v.entries)
    ensures Truthy(Get(v.entries, "constructor")) && NameOf(Get(v.entries, "constructor")) != Str("Object")
            ==> !IsBranch(v)
    ensures !Truthy(Get(v.entries, "constructor")) ==> ConstructorIsObject(v)
  {
  }

  /** The tag a declared type resolves to. */
  function TypeTag(t: Value): (tag: string)
    ensures tag in Vocabulary
  {
    if IsPrimitive(t) then FnName(t.f) else if t.Arr? then "Array" else "Object"
  }

  /** The element tag of an array literal type: its first element's name when
      that is a recognised constructor. */
  function ElementTag(t: Value): (tag: string)
    requires t.Arr?
    ensures tag in Vocabulary
  {
    if |t.items| > 0 && IsPrimitive(t.items[0]) then FnName(t.items[0].f) else "Object"
  }

  /** A descriptor object after its `type` has been resolved: `type` becomes
      the tag of the declared type, an array type gets `elements`, and every
      other key keeps its value. */
  function Normalize(d: Value): (r: Value)
    requires d.Obj?
    ensures r.Obj? && r.cls == d.cls
  {
    var t := TypeOf(d);
    if IsPrimitive(t) then
      var e := Put(d.entries, "type", Str(FnName(t.f)));
      if FnName(t.f) == "Array" then
        var el := Get(e, "elements");
        Obj(d.cls, Put(e, "elements", if Truthy(el) then el else Str("Object")))
      else
        Obj(d.cls, e)
    else if t.Arr? then
      Obj(d.cls, Put(Put(d.entries, "elements", Str(ElementTag(t))), "type", Str("Array")))
    else
      Obj(d.cls, Put(d.entries, "type", Str("Object")))
  }

  /** What resolving does to a descriptor object. */
  lemma NormalizeResolves(d: Value)
    requires d.Obj?
    ensures var r := Normalize(d);
      && TypeOf(r) == Str(TypeTag(TypeOf(d)))
      && (TypeTag(TypeOf(d)) == "Array" ==> Truthy(Prop(r, "elements")))
      && (TypeOf(d).Arr? ==> Prop(r, "elements") == Str(ElementTag(TypeOf(d))))
      && (IsPrimitive(TypeOf(d)) && Truthy(Prop(d, "elements")) ==> Prop(r, "elements") == Prop(d, "elements"))
      && (IsPrimitive(TypeOf(d)) && TypeTag(TypeOf(d)) == "Array" && !Truthy(Prop(d, "elements")) ==>
            Prop(r, "elements") == Str("Object"))
      && (TypeTag(TypeOf(d)) != "Array" ==> Prop(r, "elements") == Prop(d, "elements"))
      && forall k :: k != "type" && k != "elements" ==> Prop(r, k) == Prop(d, k)
  {
  }

  /** A descriptor whose type does not resolve to `Array` keeps its shape:
      only the value of `type` changes. */
  lemma NormalizeTagged(c: Class, t: Value, rest: Entries)
    requires TypeTag(t) != "Array"
    ensures Normalize(Obj(c, [("type", t)] + rest)) == Obj(c, [("type", Str(TypeTag(t)))] + rest)
  {
    GetHead("type", t, rest);
    PutHead("type", t, rest, Str(TypeTag(t)));
  }

  /** Normalising adds no key but `type` and, for an array, `elements`. */
  lemma NormalizeKeys(d: Value)
    requires d.Obj?
    ensures forall k :: k in Keys(Normalize(d).entries) <==>
      k in Keys(d.entries) || k == "type" || (k == "elements" && TypeTag(TypeOf(d)) == "Array")
  {
    var t := TypeOf(d);
    if IsPrimitive(t) {
      var e := Put(d.entries, "type", Str(FnName(t.f)));
      PutKeys(d.entries, "type", Str(FnName(t.f)));
      if FnName(t.f) == "Array" {
        var el := Get(e, "elements");
        PutKeys(e, "elements", if Truthy(el) then el else Str("Object"));
      }
    } else if t.Arr? {
      var e := Put(d.entries, "elements", Str(ElementTag(t)));
      PutKeys(d.entries, "elements", Str(ElementTag(t)));
      PutKeys(e, "type", Str("Array"));
    } else {
      PutKeys(d.entries, "type", Str("Object"));
    }
  }

  /** A bare value is read as the descriptor `{type: v}`. */
  function Declared(v: Value): Value {
    if Truthy(TypeOf(v)) then v else Obj(Plain, [("type", v)])
  }

  /** The descriptor stored for a leaf. */
  function Descriptor(v: Value): Value {
    Normalize(Declared(v))
  }

  /** What the declaration holds once its leaf is resolved: a descriptor object
      the caller declared is the very object that was normalised. */
  function SlotAfter(v: Value): Value {
    if Truthy(TypeOf(v)) then Normalize(v) else v
  }

  /** Resolving one key: the declared value as it is afterwards, the path table
      and the error, if any. */
  datatype Step = Step(slot: Value, into: Entries, err: Option<SchemaError>)

  /** Walking a declaration object: its entries as they are afterwards (those
      after an error untouched), the path table and the first error. */
  datatype Walk = Walk(entries: Entries, into: Entries, err: Option<SchemaError>)

  /** The body of the key loop of `_calculatePaths` for the key `key` of
      value `v`. No path already in the table is removed or reordered. */
  function Entry(prefix: string, key: string, v: Value, into: Entries): (s: Step)
    ensures Keys(into) <= Keys(s.into)
    decreases Size(v), 0
  {
    var path := prefix + key;
    if Nullish(v) then Step(v, into, Some(InvalidValue(path)))
    else if IsBranch(v) then
      ObjSize(v);
      var w := Flatten(v.entries, path + ".", into);
      Step(Obj(v.cls, w.entries), w.into, w.err)
    else if path in Reserved then Step(v, into, Some(ReservedPath(path)))
    else
      PutKeys(into, path, Descriptor(v));
      Step(SlotAfter(v), Put(into, path, Descriptor(v)), None)
  }

  /** `_calculatePaths(obj, prefix, into)` over the entries `es` of `obj`: each
      key in turn until one fails. No path already in the table is removed or
      reordered. */
  function Flatten(es: Entries, prefix: string, into: Entries): (w: Walk)
    ensures Keys(into) <= Keys(w.into)
    decreases EntriesSize(es), 1
  {
    if es == [] then Walk([], into, None)
    else
      EntriesSizeUnfold(es);
      var s := Entry(prefix, es[0].0, es[0].1, into);
      if s.err.Some? then Walk([(es[0].0, s.slot)] + es[1..], s.into, s.err)
      else
        var w := Flatten(es[1..], prefix, s.into);
        Walk([(es[0].0, s.slot)] + w.entries, w.into, w.err)
  }

  /** Where a value sits in a declaration tree: the index, in enumeration
      order, of each key leading to it. The walk rewrites values in place and
      never adds, drops or reorders keys, so a position stays valid across
      walks. */
  type Position = seq<nat>

  /** The value at a position of a declaration, as the declaration now is. */
  function At(es: Entries, pos: Position): Value
    decreases |pos|
  {
    if pos == [] || pos[0] >= |es| then Undefined
    else if |pos| == 1 then es[pos[0]].1
    else if es[pos[0]].1.Obj? then At(es[pos[0]].1.entries, pos[1..])
    else Undefined
  }

  /** The table entries a walk shares with the declaration. A descriptor
      object the caller declared is rewritten in place and stored in the
      table as that same object (lib/schema.js:67-83); a bare value is wrapped
      in a fresh `{type: v}` that only the table holds. Maps each shared path
      to the position of its object, for the last key that writes the path;
      `es` are the entries from index `from` on of the object at `at`. */
  function Shared(es: Entries, prefix: string, at: Position, from: nat, acc: map<string, Position>): map<string, Position>
    decreases EntriesSize(es), 1
  {
    if es == [] then acc
    else
      EntriesSizeUnfold(es);
      Shared(es[1..], prefix, at, from + 1, SharedBy(prefix, es[0].0, es[0].1, at + [from], acc))
  }

  /** The same for one key, whose value sits at `here`. */
  function SharedBy(prefix: string, key: string, v: Value, here: Position, acc: map<string, Position>): map<string, Position>
    decreases Size(v), 0
  {
    var path := prefix + key;
    if IsBranch(v) then
      ObjSize(v);
      Shared(v.entries, path + ".", here, 0, acc)
    else if Truthy(TypeOf(v)) then acc[path := here]
    else acc - {path}
  }
}
