/** The data-shaping logic of a Model class built by lib/model.js: the
    projection its constructor makes of an attribute map onto the schema's
    field names, `toJSON`'s pick of the field list captured when the Model
    class was made, the hydration of store results into instances, the
    callback wrapper that routes results through it, and `remove`'s
    verdict. A Model instance is the object `Obj(Document, own)` of its own
    properties. */
module Models {
  import opened Js
  import opened Schemas

  /** `attributes || {}` */
  function Attributes(attributes: Value): Value {
    if Truthy(attributes) then attributes else Obj(Plain, [])
  }

  /** The own properties the constructor's loop sets for the fields `fs`, in
      their order: `this[attr] = attributes[attr]` whenever that is not
      `undefined`. */
  function Project(fs: seq<string>, attrs: Value): (own: Entries)
    ensures forall k :: k in Keys(own) ==> k in fs
  {
    if fs == [] then []
    else
      var init := Project(fs[..|fs| - 1], attrs);
      var f := fs[|fs| - 1];
      assert fs == fs[..|fs| - 1] + [f];
      if Prop(attrs, f) != Undefined then
        PutKeys(init, f, Prop(attrs, f));
        Put(init, f, Prop(attrs, f))
      else init
  }

  /** An instance holds, for each field, the attribute's value, and nothing
      for any other name. */
  lemma {:induction false} ProjectGet(fs: seq<string>, attrs: Value, k: string)
    ensures Get(Project(fs, attrs), k) == if k in fs then Prop(attrs, k) else Undefined
    decreases |fs|
  {
    if fs != [] {
      var init := fs[..|fs| - 1];
      ProjectGet(init, attrs, k);
      assert fs == init + [fs[|fs| - 1]];
    }
  }

  /** An instance has exactly the fields whose attribute is not `undefined`
      as own properties; other attributes are ignored. */
  lemma {:induction false} ProjectKeys(fs: seq<string>, attrs: Value, k: string)
    ensures k in Keys(Project(fs, attrs)) <==> k in fs && Prop(attrs, k) != Undefined
    decreases |fs|
  {
    if fs != [] {
      var init := fs[..|fs| - 1];
      var f := fs[|fs| - 1];
      ProjectKeys(init, attrs, k);
      assert fs == init + [f];
      if Prop(attrs, f) != Undefined {
        PutKeys(Project(init, attrs), f, Prop(attrs, f));
      }
    }
  }

  /** The own properties of an instance form a JavaScript object. */
  lemma {:induction false} ProjectDistinct(fs: seq<string>, attrs: Value)
    ensures DistinctKeys(Project(fs, attrs))
    decreases |fs|
  {
    if fs != [] {
      var init := fs[..|fs| - 1];
      var f := fs[|fs| - 1];
      ProjectDistinct(init, attrs);
      if Prop(attrs, f) != Undefined {
        PutDistinct(Project(init, attrs), f, Prop(attrs, f));
      }
    }
  }

  /** `new Model(attributes)` with the field list `fs` the schema has at that
      moment. */
  function Constructed(fs: seq<string>, attributes: Value): Value {
    Obj(Document, Project(fs, Attributes(attributes)))
  }

  /** The constructor of lib/model.js:8-18: a loop over the fields assigning
      onto the new object. */
  method Construct(fs: seq<string>, attributes: Value) returns (doc: Value)
    ensures doc == Constructed(fs, attributes)
    ensures DistinctKeys(doc.entries)
    ensures forall k :: Prop(doc, k) == if k in fs then Prop(Attributes(attributes), k) else Undefined
  {
    var attrs := attributes;
    if !Truthy(attrs) {
      attrs := Obj(Plain, []);
    }
    var own: Entries := [];
    for i := 0 to |fs|
      invariant own == Project(fs[..i], attrs)
    {
      assert fs[..i + 1][..i] == fs[..i];
      var attr := fs[i];
      if Prop(attrs, attr) != Undefined {
        own := Put(own, attr, Prop(attrs, attr));
      }
    }
    assert fs[..|fs|] == fs;
    doc := Obj(Document, own);
    forall k ensures Prop(doc, k) == if k in fs then Prop(attrs, k) else Undefined {
      ProjectGet(fs, attrs, k);
    }
    ProjectDistinct(fs, attrs);
  }

  /** `_.pick(this, keys)` over the own properties of an instance: each key in
      turn that the instance has, with its value. */
  function Pick(own: Entries, keys: seq<string>): (r: Entries)
    ensures forall k :: k in Keys(r) ==> k in keys && k in Keys(own)
  {
    if keys == [] then []
    else
      var init := Pick(own, keys[..|keys| - 1]);
      var k := keys[|keys| - 1];
      assert keys == keys[..|keys| - 1] + [k];
      if k in Keys(own) then
        PutKeys(init, k, Get(own, k));
        Put(init, k, Get(own, k))
      else init
  }

  /** `toJSON` keeps exactly the picked keys the instance has, with the same
      values, and nothing else. */
  lemma {:induction false} PickGet(own: Entries, keys: seq<string>, k: string)
    ensures Get(Pick(own, keys), k) == if k in keys then Get(own, k) else Undefined
    ensures k in Keys(Pick(own, keys)) <==> k in keys && k in Keys(own)
    decreases |keys|
  {
    if keys != [] {
      var init := keys[..|keys| - 1];
      var last := keys[|keys| - 1];
      PickGet(own, init, k);
      assert keys == init + [last];
      if last in Keys(own) {
        PutKeys(Pick(own, init), last, Get(own, last));
      }
    }
  }

  /** Picking fields from an instance built with at least those fields
      gives what the constructor would have built from the attributes with
      the picked fields alone. */
  lemma {:induction false} PickProject(fs: seq<string>, attrs: Value, keys: seq<string>)
    requires forall k :: k in keys ==> k in fs
    ensures Pick(Project(fs, attrs), keys) == Project(keys, attrs)
    decreases |keys|
  {
    if keys != [] {
      var init := keys[..|keys| - 1];
      var last := keys[|keys| - 1];
      PickProject(fs, attrs, init);
      ProjectKeys(fs, attrs, last);
      ProjectGet(fs, attrs, last);
    }
  }

  /** Building an instance from an object that holds the same fields
      reproduces it. */
  lemma {:induction false} ProjectOfProject(fs: seq<string>, attrs: Value, keys: seq<string>)
    requires forall k :: k in keys ==> k in fs
    ensures Project(keys, Obj(Plain, Project(fs, attrs))) == Project(keys, attrs)
    decreases |keys|
  {
    if keys != [] {
      var init := keys[..|keys| - 1];
      var last := keys[|keys| - 1];
      ProjectOfProject(fs, attrs, init);
      ProjectGet(fs, attrs, last);
    }
  }

  /** `_mapResults(result)`: nothing for a falsy result, an array of
      instances for an array, one instance otherwise. */
  function MapResults(fs: seq<string>, result: Value): (r: Value)
    ensures !Truthy(result) <==> r == Undefined
    ensures result.Arr? ==> r.Arr? && |r.items| == |result.items|
    ensures result.Arr? ==> forall i :: 0 <= i < |result.items| ==>
      && r.items[i].Obj? && r.items[i].cls == Document
      && forall k :: Prop(r.items[i], k) == if k in fs then Prop(Attributes(result.items[i]), k) else Undefined
    ensures Truthy(result) && !result.Arr? ==>
      && r.Obj? && r.cls == Document
      && forall k :: Prop(r, k) == if k in fs then Prop(result, k) else Undefined
  {
    if !Truthy(result) then Undefined
    else if result.Arr? then
      InstanceProps(fs);
      Arr(seq(|result.items|, i requires 0 <= i < |result.items| => Constructed(fs, result.items[i])))
    else
      InstanceProps(fs);
      Constructed(fs, result)
  }

  lemma InstanceProps(fs: seq<string>)
    ensures forall a: Value, k :: Prop(Constructed(fs, a), k) == if k in fs then Prop(Attributes(a), k) else Undefined
  {
    forall a: Value, k ensures Prop(Constructed(fs, a), k) == if k in fs then Prop(Attributes(a), k) else Undefined {
      ProjectGet(fs, Attributes(a), k);
    }
  }

  /** What the wrapped callback passes on to the caller's callback, given the
      arguments the store called it with. Without a key the whole result is
      hydrated; with a key only `result[key]` is, and every other property of
      the result is left as it was. The parameter `result` is an alias of
      `arguments[1]`, so the reassignment shows in what is passed on. */
  function Delivered(fs: seq<string>, key: Option<string>, args: seq<Value>): (out: seq<Value>)
    requires key.Some? && key.value != "" ==> |args| >= 2 && args[1].Obj?
    ensures |out| == |args| && forall i :: 0 <= i < |args| && i != 1 ==> out[i] == args[i]
    ensures |args| >= 2 && (key.None? || key.value == "") ==> out[1] == MapResults(fs, args[1])
    ensures key.Some? && key.value != "" ==>
      && out[1].Obj? && out[1].cls == args[1].cls
      && Prop(out[1], key.value) == MapResults(fs, Prop(args[1], key.value))
      && forall j :: j != key.value ==> Prop(out[1], j) == Prop(args[1], j)
  {
    if |args| < 2 then args
    else if key.Some? && key.value != "" then
      var result := args[1];
      args[1 := Obj(result.cls, Put(result.entries, key.value, MapResults(fs, Prop(result, key.value))))]
    else
      args[1 := MapResults(fs, args[1])]
  }

  /** What calling the wrapper `wrapper` with the store's arguments `args`
      amounts to: the caller's callback it holds, called with the arguments
      once the result is hydrated. */
  function Handed(fs: seq<string>, wrapper: Fn, args: seq<Value>): (call: (Fn, seq<Value>))
    requires wrapper.Hydrating?
    requires wrapper.key.Some? && wrapper.key.value != "" ==> |args| >= 2 && args[1].Obj?
    ensures call.0 == wrapper.callback
    ensures call.1 == Delivered(fs, wrapper.key, args)
    ensures |args| >= 2 && wrapper.key.None? && args[1].Arr? ==>
      call.1[1].Arr? && |call.1[1].items| == |args[1].items|
  {
    (wrapper.callback, Delivered(fs, wrapper.key, args))
  }

  /** `_wrapCallback(args, key)`: when the last argument is a function it is
      popped and a wrapper around it pushed in its place; otherwise the
      arguments are left as they are. */
  method WrapCallback(args: array<Value>, key: Option<string>)
    modifies args
    ensures args.Length > 0 && old(args[args.Length - 1]).Func? ==>
      args[..] == old(args[..])[args.Length - 1 := Func(Hydrating(old(args[args.Length - 1]).f, key))]
    ensures !(args.Length > 0 && old(args[args.Length - 1]).Func?) ==> args[..] == old(args[..])
  {
    if args.Length > 0 && args[args.Length - 1].Func? {
      var callback := args[args.Length - 1].f;
      args[args.Length - 1] := Func(Hydrating(callback, key));
    }
  }

  /** `_apply(method, args, key)`: the arguments are copied and wrapped; the
      copy is what the collection method is called with. */
  method Apply(args: seq<Value>, key: Option<string>) returns (forwarded: seq<Value>)
    ensures |forwarded| == |args|
    ensures |args| > 0 && args[|args| - 1].Func? ==>
      forwarded == args[..|args| - 1] + [Func(Hydrating(args[|args| - 1].f, key))]
    ensures !(|args| > 0 && args[|args| - 1].Func?) ==> forwarded == args
  {
    var copy := new Value[|args|](i requires 0 <= i < |args| => args[i]);
    assert copy[..] == args;
    WrapCallback(copy, key);
    forwarded := copy[..];
  }

  /** How a Model class answers a static method call. */
  datatype Binding =
    | Wrapped(key: Option<string>)  // routed through `_apply`, results hydrated
    | Delegated                     // not wrapped: whatever `Model[name]` already holds
                                    // (a collection or emitter method); results untouched

  const WrappedMethods: seq<string> := ["find", "findOne", "insert", "save", "update"]

  /** lib/model.js:56-61: the five document-returning methods are wrapped
      without a key, `findAndModify` with the key `'value'`. */
  function StaticBinding(name: string): (b: Binding)
    ensures b.Wrapped? <==> name in WrappedMethods || name == "findAndModify"
    ensures b.Wrapped? && b.key.Some? <==> name == "findAndModify"
    ensures b.Wrapped? && b.key.Some? ==> b.key.value == "value"
  {
    if name in WrappedMethods then Wrapped(None)
    else if name == "findAndModify" then Wrapped(Some("value"))
    else Delegated
  }

  /** The second argument `remove` hands its callback:
      `result && result.n === 1`. */
  function RemoveVerdict(result: Value): (r: Value)
    ensures Truthy(r) <==> Truthy(result) && Prop(result, "n") == Num(1)
    ensures Truthy(result) ==> r.Bool?
    ensures !Truthy(result) ==> r == result
  {
    if !Truthy(result) then result else Bool(Prop(result, "n") == Num(1))
  }

  /** A Model class made for a schema: the schema it reads live and the field
      list `_fields` captured when the class was made. */
  class ModelType {
    const schema: Schema
    const fields: seq<string>

    constructor (schema: Schema)
      ensures this.schema == schema && fields == schema.GetFields()
    {
      this.schema := schema;
      fields := schema.GetFields();
    }

    /** `new Model(attributes)`: the constructor reads the schema's fields
        at the time of the call. */
    method New(attributes: Value) returns (doc: Value)
      ensures doc == Constructed(schema.GetFields(), attributes)
    {
      var fs := schema.GetFields();
      doc := Construct(fs, attributes);
    }

    /** `toJSON()` on an instance with the own properties of `doc`. Unless
        the instance has an own `_fields`, it is a fresh object holding those
        captured fields the instance has or inherits, with their values. */
    function ToJSON(doc: Value): (r: Value)
      reads this
      requires doc.Obj?
      ensures r == ToJson(fields, doc.entries)
      ensures "_fields" !in Keys(doc.entries) ==>
        forall k :: k in Keys(r.entries) <==> k in fields && (k in Keys(doc.entries) || k in InheritedNames)
      ensures "_fields" !in Keys(doc.entries) ==>
        forall k :: k in fields && k in Keys(doc.entries) ==> Prop(r, k) == Prop(doc, k)
    {
      var r := ToJson(fields, doc.entries);
      KeysAppend(doc.entries, Inherited(fields));
      InheritedKeys(fields);
      forall k | k in fields && k in Keys(doc.entries) ensures Get(Chain(fields, doc.entries), k) == Prop(doc, k) {
        GetAppend(doc.entries, Inherited(fields), k);
      }
      r
    }
  }

  /** The properties a Model instance inherits, nearest first: those of
      `Model.prototype` (lib/model.js:23-42 and the `constructor` every
      function's prototype has), then those of `Object.prototype`, whose
      `__proto__` getter yields `Model.prototype`. */
  const InheritedNames: seq<string> := [
    "constructor", "save", "remove", "_fields", "toJSON",
    "hasOwnProperty", "isPrototypeOf", "propertyIsEnumerable", "toLocaleString", "toString", "valueOf",
    "__defineGetter__", "__defineSetter__", "__lookupGetter__", "__lookupSetter__", "__proto__"]

  /** A field list as the array `Model.prototype._fields`. */
  function FieldArray(fs: seq<string>): (a: Value)
    ensures a.Arr? && |a.items| == |fs| && forall i :: 0 <= i < |fs| ==> a.items[i] == Str(fs[i])
  {
    Arr(seq(|fs|, i requires 0 <= i < |fs| => Str(fs[i])))
  }

  /** The inherited value of `name` for a Model class that captured `captured`.
      Methods are told apart by name. */
  function InheritedValue(captured: seq<string>, name: string): Value {
    if name == "constructor" then Func(Named("Model"))
    else if name == "_fields" then FieldArray(captured)
    else if name == "__proto__" then
      Obj(Plain, [("constructor", Func(Named("Model"))), ("save", Func(Named("save"))),
                  ("remove", Func(Named("remove"))), ("_fields", FieldArray(captured)),
                  ("toJSON", Func(Named("toJSON")))])
    else Func(Named(name))
  }

  function Inherited(captured: seq<string>): Entries {
    Bind(captured, InheritedNames)
  }

  function Bind(captured: seq<string>, names: seq<string>): Entries {
    if names == [] then [] else [(names[0], InheritedValue(captured, names[0]))] + Bind(captured, names[1..])
  }

  lemma {:induction false} BindKeys(captured: seq<string>, names: seq<string>)
    ensures Keys(Bind(captured, names)) == names
  {
    if names != [] {
      BindKeys(captured, names[1..]);
      KeysCons((names[0], InheritedValue(captured, names[0])), Bind(captured, names[1..]));
    }
  }

  /** Every entry for a name holds that name's inherited value, so lookup
      needs no distinctness. */
  lemma {:induction false} BindGet(captured: seq<string>, names: seq<string>, k: string)
    ensures Get(Bind(captured, names), k) == if k in names then InheritedValue(captured, k) else Undefined
  {
    if names != [] {
      var e := (names[0], InheritedValue(captured, names[0]));
      BindGet(captured, names[1..], k);
      assert ([e] + Bind(captured, names[1..]))[1..] == Bind(captured, names[1..]);
      assert names == [names[0]] + names[1..];
    }
  }

  lemma InheritedKeys(captured: seq<string>)
    ensures Keys(Inherited(captured)) == InheritedNames
  {
    BindKeys(captured, InheritedNames);
  }

  /** An instance inherits each of these names with its inherited value, and
      nothing else. */
  lemma InheritedGet(captured: seq<string>, k: string)
    ensures Get(Inherited(captured), k) == if k in InheritedNames then InheritedValue(captured, k) else Undefined
  {
    BindGet(captured, InheritedNames, k);
  }

  /** What `this[k]` and `k in this` read on an instance whose own
      properties are `own`: its own properties, then the inherited ones. */
  function Chain(captured: seq<string>, own: Entries): Entries {
    own + Inherited(captured)
  }

  /** The string keys the value of `this._fields` lists for `_.pick`: an
      array's strings, or a single string. */
  function FieldList(v: Value): seq<string> {
    if v.Str? then [v.s] else if v.Arr? then StrItems(v.items) else []
  }

  function StrItems(items: seq<Value>): (ks: seq<string>)
    ensures forall k :: k in ks <==> Str(k) in items
  {
    if items == [] then []
    else
      assert items == [items[0]] + items[1..];
      (if items[0].Str? then [items[0].s] else []) + StrItems(items[1..])
  }

  lemma {:induction false} StrItemsOfFields(fs: seq<string>)
    ensures StrItems(FieldArray(fs).items) == fs
    decreases |fs|
  {
    if fs != [] {
      StrItemsOfFields(fs[1..]);
      assert FieldArray(fs).items[1..] == FieldArray(fs[1..]).items;
    }
  }

  /** `this._fields` read as keys: the instance's own `_fields` when it has
      one, otherwise the list the Model class captured. */
  function PickedKeys(captured: seq<string>, own: Entries): (keys: seq<string>)
    ensures "_fields" !in Keys(own) ==> keys == captured
    ensures "_fields" in Keys(own) ==> keys == FieldList(Get(own, "_fields"))
  {
    GetAppend(own, Inherited(captured), "_fields");
    InheritedKeys(captured);
    InheritedGet(captured, "_fields");
    StrItemsOfFields(captured);
    FieldList(Get(Chain(captured, own), "_fields"))
  }

  /** `_.pick(this, this._fields)` (lib/model.js:40-42): every listed key
      the instance has or inherits, with the value found along the chain, and
      no other key. */
  function ToJson(captured: seq<string>, own: Entries): (r: Value)
    ensures r.Obj? && r.cls == Plain
    ensures forall k :: k in Keys(r.entries) <==> k in PickedKeys(captured, own) && k in Keys(Chain(captured, own))
    ensures forall k :: Prop(r, k) == if k in PickedKeys(captured, own) then Get(Chain(captured, own), k) else Undefined
  {
    PickAll(Chain(captured, own), PickedKeys(captured, own));
    Obj(Plain, Pick(Chain(captured, own), PickedKeys(captured, own)))
  }

  lemma PickAll(own: Entries, keys: seq<string>)
    ensures forall k :: k in Keys(Pick(own, keys)) <==> k in keys && k in Keys(own)
    ensures forall k :: Get(Pick(own, keys), k) == if k in keys then Get(own, k) else Undefined
  {
    forall k ensures
      && (k in Keys(Pick(own, keys)) <==> k in keys && k in Keys(own))
      && Get(Pick(own, keys), k) == (if k in keys then Get(own, k) else Undefined)
    {
      PickGet(own, keys, k);
    }
  }

  /** A key `toJSON` outputs is a captured field, unless the instance has an
      own `_fields`, which then decides. */
  lemma ToJsonKeys(captured: seq<string>, own: Entries, k: string)
    requires k in Keys(ToJson(captured, own).entries)
    ensures if "_fields" in Keys(own) then k in FieldList(Get(own, "_fields")) else k in captured
  {
  }

  /** Picking keys that no later object of a chain has reads only the
      nearest one. */
  lemma {:induction false} PickNearest(a: Entries, b: Entries, keys: seq<string>)
    requires forall k :: k in keys ==> k !in Keys(b)
    ensures Pick(a + b, keys) == Pick(a, keys)
    decreases |keys|
  {
    if keys != [] {
      var last := keys[|keys| - 1];
      PickNearest(a, b, keys[..|keys| - 1]);
      KeysAppend(a, b);
      GetAppend(a, b, last);
    }
  }

  /** test/lib.model.test.js:141: an instance rebuilt from the `toJSON()` of
      another, with the same field list, equals it, when no field names an
      inherited property. */
  lemma ToJsonRoundTrip(fs: seq<string>, attributes: Value)
    requires forall k :: k in fs ==> k !in InheritedNames
    ensures Constructed(fs, ToJson(fs, Constructed(fs, attributes).entries)) == Constructed(fs, attributes)
  {
    var a := Attributes(attributes);
    var own := Project(fs, a);
    ProjectKeys(fs, a, "_fields");
    InheritedKeys(fs);
    PickNearest(own, Inherited(fs), fs);
    PickProject(fs, a, fs);
    ProjectOfProject(fs, a, fs);
    if Project(fs, a) == [] {
      assert Project(fs, Obj(Plain, [])) == [] by { ProjectEmpty(fs); }
    }
  }

  /** Every property of the empty object is `undefined`. */
  lemma {:induction false} ProjectEmpty(fs: seq<string>)
    ensures Project(fs, Obj(Plain, [])) == []
    decreases |fs|
  {
    if fs != [] {
      ProjectEmpty(fs[..|fs| - 1]);
    }
  }

  /** A field named like a `Model.prototype` member breaks the round trip:
      with the field `_fields` and no attributes the instance has no own
      `_fields`, `toJSON` picks the inherited captured list, and the rebuilt
      instance owns that list. */
  lemma InheritedFieldBreaksRoundTrip(fs: seq<string>)
    requires fs == ["_fields"]
    ensures var doc := Constructed(fs, Obj(Plain, []));
      && doc == Obj(Document, [])
      && ToJson(fs, doc.entries) == Obj(Plain, [("_fields", FieldArray(fs))])
      && Constructed(fs, ToJson(fs, doc.entries)) == Obj(Document, [("_fields", FieldArray(fs))])
  {
    var picked := [("_fields", FieldArray(fs))];
    assert Constructed(fs, Obj(Plain, [])) == Obj(Document, []) by {
      ProjectEmpty(fs);
    }
    assert ToJson(fs, []) == Obj(Plain, picked) by {
      InheritedKeys(fs);
      InheritedGet(fs, "_fields");
      GetAppend([], Inherited(fs), "_fields");
      KeysAppend([], Inherited(fs));
      ToJsonOne(fs, [], "_fields");
    }
    assert Constructed(fs, Obj(Plain, picked)) == Obj(Document, picked) by {
      ProjectOne("_fields", Obj(Plain, picked));
    }
  }

  /** Projecting onto a single field. */
  lemma ProjectOne(f: string, attrs: Value)
    ensures Project([f], attrs) == if Prop(attrs, f) != Undefined then [(f, Prop(attrs, f))] else []
  {
    assert [f][..0] == [];
  }

  /** An instance without that own property inherits a method by name. */
  lemma MethodInherited(fs: seq<string>, own: Entries, name: string)
    requires name in InheritedNames && name !in Keys(own)
    requires name != "constructor" && name != "_fields" && name != "__proto__"
    ensures Get(Chain(fs, own), name) == Func(Named(name)) && name in Keys(Chain(fs, own))
  {
    InheritedKeys(fs);
    InheritedGet(fs, name);
    GetAppend(own, Inherited(fs), name);
    KeysAppend(own, Inherited(fs));
  }

  /** `toJSON` when `this._fields` lists a single key the instance has or
      inherits. */
  lemma ToJsonOne(fs: seq<string>, own: Entries, k: string)
    requires PickedKeys(fs, own) == [k] && k in Keys(Chain(fs, own))
    ensures ToJson(fs, own) == Obj(Plain, [(k, Get(Chain(fs, own), k))])
  {
    var m := Chain(fs, own);
    assert [k][..0] == [];
    assert Pick(m, [k]) == Put(Pick(m, []), k, Get(m, k));
  }

  /** A field added to the schema after the Model class was made is set by
      the constructor but left out of `toJSON`, unless the instance's own
      `_fields` lists it. */
  lemma LateFieldOmitted(captured: seq<string>, live: seq<string>, attributes: Value, k: string)
    requires k in live && k !in captured && Prop(Attributes(attributes), k) != Undefined
    ensures k in Keys(Constructed(live, attributes).entries)
    ensures var own := Constructed(live, attributes).entries;
      k in Keys(ToJson(captured, own).entries) ==> "_fields" in Keys(own) && k in FieldList(Get(own, "_fields"))
  {
    ProjectKeys(live, Attributes(attributes), k);
  }

  /** `toJSON` holds a Model method such as `save` only when an own `_fields`
      property lists it: a schema's fields name no reserved path. */
  lemma ToJsonExcludesMethods(s: Schema, own: Entries, k: string)
    requires s.Valid() && k in SchemaPaths.Reserved
    ensures k in Keys(ToJson(s.GetFields(), own).entries) ==>
      "_fields" in Keys(own) && k in FieldList(Get(own, "_fields"))
  {
  }

  /** A schema with the field `_fields` lets an instance shadow the captured
      list: `new Model({_fields: ['save']}).toJSON()` is `{save: <method>}`. */
  lemma OwnFieldsShadowCapture(fs: seq<string>)
    requires fs == ["_fields", "_id"]
    ensures var doc := Constructed(fs, Obj(Plain, [("_fields", FieldArray(["save"]))]));
      && doc == Obj(Document, [("_fields", FieldArray(["save"]))])
      && ToJson(fs, doc.entries) == Obj(Plain, [("save", Func(Named("save")))])
  {
    var own := [("_fields", FieldArray(["save"]))];
    assert Constructed(fs, Obj(Plain, own)) == Obj(Document, own) by {
      OwnFieldsKept(fs, own);
    }
    assert ToJson(fs, own) == Obj(Plain, [("save", Func(Named("save")))]) by {
      assert PickedKeys(fs, own) == ["save"] by {
        StrItemsOfFields(["save"]);
      }
      MethodInherited(fs, own, "save");
      ToJsonOne(fs, own, "save");
    }
  }

  lemma OwnFieldsKept(fs: seq<string>, own: Entries)
    requires fs == ["_fields", "_id"] && own == [("_fields", FieldArray(["save"]))]
    ensures Project(fs, Obj(Plain, own)) == own
  {
    var attrs := Obj(Plain, own);
    assert Prop(attrs, "_id") == Undefined;
    assert Prop(attrs, "_fields") == FieldArray(["save"]);
    var one := ["_fields"];
    assert one[..0] == [];
    assert Project(one, attrs) == Put([], "_fields", FieldArray(["save"]));
    assert fs[..1] == one;
    assert Project(fs, attrs) == Project(one, attrs);
  }
}
