/** Concrete declarations that show how lib/schema.js classifies and
    resolves values, including the rewriting of declared descriptor objects
    that a second walk sees. */
module SchemaExamples {
  import opened Js
  import opened SchemaPaths
  import opened SchemaFacts
  import opened Schemas

  const ObjectDecl: Value := Obj(Plain, [("type", Str("Object"))])

  /** `{type: tag}` */
  function Tagged(tag: string): Value {
    Obj(Plain, [("type", Str(tag))])
  }

  /** `{type: 'Array', elements: tag}` */
  function ArrayOf(tag: string): Value {
    Obj(Plain, [("type", Str("Array")), ("elements", Str(tag))])
  }

  /** `Boolean` is not a recognised constructor, so it resolves to `Object`. */
  lemma BooleanIsObject()
    ensures Descriptor(Func(BooleanFn)) == ObjectDecl
  {
    assert [("type", Func(BooleanFn))] == [("type", Func(BooleanFn))] + [];
    NormalizeTagged(Plain, Func(BooleanFn), []);
  }

  /** An empty plain object is a leaf, resolved to `{type: 'Object'}`. */
  lemma EmptyObjectIsLeaf(key: string)
    requires key !in Reserved
    ensures var s := Entry("", key, Obj(Plain, []), []);
      s.err.None? && s.into == [(key, ObjectDecl)]
  {
    var e := Obj(Plain, []);
    assert !IsBranch(e) && !Truthy(TypeOf(e)) && "" + key == key;
    assert [("type", e)] == [("type", e)] + [];
    NormalizeTagged(Plain, e, []);
    assert Descriptor(e) == ObjectDecl;
    EntryLeaf("", key, e, []);
  }

  /** An object whose own `constructor` is truthy and not named `Object` is a leaf, even
      a plain one: `{constructor: String}` and `{constructor: 'x', b: Number}`
      each resolve to `{type: 'Object'}` under their own key. */
  lemma OwnConstructorIsLeaf(key: string)
    requires key !in Reserved
    ensures var c := Obj(Plain, [("constructor", Func(StringFn))]);
      !IsBranch(c) && Entry("", key, c, []) == Step(c, [(key, ObjectDecl)], None)
    ensures var x := Obj(Plain, [("constructor", Str("x")), ("b", Func(NumberFn))]);
      !IsBranch(x) && Entry("", key, x, []) == Step(x, [(key, ObjectDecl)], None)
  {
    var c := Obj(Plain, [("constructor", Func(StringFn))]);
    var x := Obj(Plain, [("constructor", Str("x")), ("b", Func(NumberFn))]);
    assert !ConstructorIsObject(c) && TypeOf(c) == Undefined by {
      assert ConstructorOf(c) == Func(StringFn);
    }
    UntypedLeaf(key, c);
    assert !ConstructorIsObject(x) && TypeOf(x) == Undefined by {
      assert ConstructorOf(x) == Str("x");
    }
    UntypedLeaf(key, x);
  }

  /** A falsy own `constructor` does not stop an object from expanding:
      `{constructor: null, a: String}` under `x` is a branch. */
  lemma NullConstructorExpands()
    ensures IsBranch(Obj(Plain, [("constructor", Null), ("a", Func(StringFn))]))
  {
    var v := Obj(Plain, [("constructor", Null), ("a", Func(StringFn))]);
    assert ConstructorOf(v) == Null;
    assert TypeOf(v) == Undefined;
  }

  /** An object without `type` that does not expand is wrapped as `{type: v}`
      and resolves to `{type: 'Object'}`. */
  lemma UntypedLeaf(key: string, v: Value)
    requires key !in Reserved && v.Obj? && !ConstructorIsObject(v) && TypeOf(v) == Undefined
    ensures !IsBranch(v) && Entry("", key, v, []) == Step(v, [(key, ObjectDecl)], None)
  {
    assert "" + key == key;
    assert [("type", v)] == [("type", v)] + [];
    NormalizeTagged(Plain, v, []);
    assert Descriptor(v) == ObjectDecl;
    EntryLeaf("", key, v, []);
  }

  /** The reserved names are checked against the full path: `save` at the top
      is rejected, `x.save` is accepted. */
  lemma ReservedTopLevel()
    ensures Flatten([("save", Func(StringFn))], "", []).err == Some(ReservedPath("save"))
  {
    assert "" + "save" == "save";
    FlattenStep([("save", Func(StringFn))], "", []);
  }

  lemma ReservedNestedAccepted()
    ensures var w := Flatten([("x", Obj(Plain, [("save", Func(StringFn))]))], "", []);
      w.err.None? && Keys(w.into) == ["x.save"]
  {
    var inner := [("save", Func(StringFn))];
    var x := Obj(Plain, inner);
    assert IsBranch(x);
    assert "" + "x" + "." + "save" == "x.save";
    assert "x.save" !in Reserved;
    ObjSize(x);
    FlattenStep(inner, "x.", []);
    FlattenStep([("x", x)], "", []);
    PutKeys([], "x.save", Descriptor(Func(StringFn)));
  }

  /** A null value nested below a branch is rejected with its full path. */
  lemma NullNamesFullPath()
    ensures Flatten([("a", Obj(Plain, [("b", Null)]))], "", []).err == Some(InvalidValue("a.b"))
  {
    var a := Obj(Plain, [("b", Null)]);
    assert IsBranch(a);
    assert "" + "a" + "." + "b" == "a.b";
    ObjSize(a);
    FlattenStep([("b", Null)], "a.", []);
    FlattenStep([("a", a)], "", []);
  }

  /** The aliasing at lib/schema.js:67-83. `five: {type: ObjectId, ref: 'Model'}`
      first resolves to `{type: 'ObjectID', ref: 'Model'}`, and the declared
      object itself now holds that. A second walk over the declaration, as
      `addField` does, reads the string `'ObjectID'` as an unrecognised type
      and resolves `five` to `{type: 'Object', ref: 'Model'}`. */
  lemma RecomputeLosesObjectId()
    ensures var w := Flatten([("five", Five)], "", []); var w' := Flatten(w.entries, "", []);
      && w.err.None? && w.into == [("five", FiveResolved)]
      && w.entries == w.into
      && w'.err.None? && w'.into == [("five", FiveAgain)]
  {
    FivePasses();
    assert "" + "five" == "five" && "five" !in Reserved;
    FlattenStep([("five", Five)], "", []);
    EntryLeaf("", "five", Five, []);
    FlattenStep([("five", FiveResolved)], "", []);
    EntryLeaf("", "five", FiveResolved, []);
  }

  /** The table a walk returns holds the declared descriptor object of
      `five` itself, so the second walk also rewrites what the first table
      holds: read after it, that table's `five` is `{type: 'Object', ...}`. */
  lemma SharedEntryFollowsTree()
    ensures var w := Flatten([("five", Five)], "", []); var w' := Flatten(w.entries, "", []);
      var shared := Shared([("five", Five)], "", [], 0, map[]);
      && shared == map["five" := [0]]
      && Resync(w.into, shared, w'.entries) == [("five", FiveAgain)]
  {
    RecomputeLosesObjectId();
    FivePasses();
    assert "" + "five" == "five";
    var w' := Flatten([("five", FiveResolved)], "", []);
    assert w'.entries == [("five", FiveAgain)] by {
      FlattenStep([("five", FiveResolved)], "", []);
      EntryLeaf("", "five", FiveResolved, []);
    }
    assert At(w'.entries, [0]) == FiveAgain;
    assert TypeOf(Five) == Func(ObjectIdFn) by {
      GetHead("type", Func(ObjectIdFn), [("ref", Str("Model"))]);
    }
    var m: map<string, Position> := map[];
    var top: Position := [];
    assert top + [0] == [0];
    assert SharedBy("", "five", Five, top + [0], m) == m["five" := [0]];
    EntriesSizeUnfold([("five", Five)]);
    assert [("five", Five)][1..] == [];
  }

  /** What each walk makes of the declaration of `five`. */
  lemma FivePasses()
    ensures !IsBranch(Five) && Descriptor(Five) == FiveResolved && SlotAfter(Five) == FiveResolved
    ensures !IsBranch(FiveResolved) && Descriptor(FiveResolved) == FiveAgain && SlotAfter(FiveResolved) == FiveAgain
  {
    var rest := [("ref", Str("Model"))];
    assert Five.entries == [("type", Func(ObjectIdFn))] + rest;
    assert FiveResolved.entries == [("type", Str("ObjectID"))] + rest;
    assert FiveAgain.entries == [("type", Str("Object"))] + rest;
    GetHead("type", Func(ObjectIdFn), rest);
    GetHead("type", Str("ObjectID"), rest);
    NormalizeTagged(Plain, Func(ObjectIdFn), rest);
    NormalizeTagged(Plain, Str("ObjectID"), rest);
  }

  /** Overwriting a declared key with `addField` replaces its paths: the
      sub-paths of the old declaration are gone. */
  lemma OverwriteDropsPaths()
    ensures var tree := [("a", Obj(Plain, [("b", Func(StringFn))]))];
      var w := Flatten(tree, "", []); var w' := Flatten(Put(tree, "a", Func(StringFn)), "", []);
      && w.err.None? && Keys(w.into) == ["a.b"]
      && w'.err.None? && Keys(w'.into) == ["a"]
  {
    var inner := [("b", Func(StringFn))];
    var a := Obj(Plain, inner);
    var tree := [("a", a)];
    assert Keys(Flatten(tree, "", []).into) == ["a.b"] && Flatten(tree, "", []).err.None? by {
      assert IsBranch(a);
      assert "" + "a" + "." + "b" == "a.b";
      assert "a.b" !in Reserved;
      ObjSize(a);
      FlattenStep(inner, "a.", []);
      FlattenStep(tree, "", []);
      PutKeys([], "a.b", Descriptor(Func(StringFn)));
    }
    assert Put(tree, "a", Func(StringFn)) == [("a", Func(StringFn))];
    assert Keys(Flatten([("a", Func(StringFn))], "", []).into) == ["a"] by {
      assert "" + "a" == "a" && "a" !in Reserved;
      FlattenStep([("a", Func(StringFn))], "", []);
      PutKeys([], "a", Descriptor(Func(StringFn)));
    }
  }

  /** A recognised constructor other than `Array`, declared bare, resolves to
      `{type: name}`; the declaration keeps the constructor. */
  lemma BareConstructor(f: Fn)
    requires IsPrimitive(Func(f)) && f != ArrayFn
    ensures Descriptor(Func(f)) == Tagged(FnName(f)) && SlotAfter(Func(f)) == Func(f)
  {
    assert FnName(f) != "Array";
    assert [("type", Func(f))] == [("type", Func(f))] + [];
    NormalizeTagged(Plain, Func(f), []);
  }

  /** `Array`, declared bare, gets `elements: 'Object'`. */
  lemma BareArray()
    ensures Descriptor(Func(ArrayFn)) == ArrayOf("Object")
  {
    var d := Obj(Plain, [("type", Func(ArrayFn))]);
    assert Declared(Func(ArrayFn)) == d && TypeOf(d) == Func(ArrayFn);
    var e := [("type", Str("Array"))];
    assert Put(d.entries, "type", Str("Array")) == e;
    assert Get(e, "elements") == Undefined;
    assert Put(e, "elements", Str("Object")) == ArrayOf("Object").entries;
  }

  /** An array literal `[String]` resolves to `{type: 'Array', elements: 'String'}`. */
  lemma ArrayLiteral()
    ensures Descriptor(Arr([Func(StringFn)])) == ArrayOf("String")
  {
    var t := Arr([Func(StringFn)]);
    var d := Obj(Plain, [("type", t)]);
    assert Declared(t) == d && TypeOf(d) == t && !IsPrimitive(t);
    assert ElementTag(t) == "String";
    var e := Put(d.entries, "elements", Str("String"));
    assert e == [("type", t), ("elements", Str("String"))];
    assert Put(e, "type", Str("Array")) == ArrayOf("String").entries;
  }

  /** One leaf that resolves to a new path, then the rest of the walk. */
  lemma LeafStep(es: Entries, prefix: string, into: Entries, into': Entries)
    requires es != [] && !Nullish(es[0].1) && !IsBranch(es[0].1) && prefix + es[0].0 !in Reserved
    requires prefix + es[0].0 !in Keys(into) && into' == into + [(prefix + es[0].0, Descriptor(es[0].1))]
    ensures Flatten(es, prefix, into).into == Flatten(es[1..], prefix, into').into
    ensures Flatten(es, prefix, into).err == Flatten(es[1..], prefix, into').err
  {
    PutAppend(into, prefix + es[0].0, Descriptor(es[0].1));
    EntryLeaf(prefix, es[0].0, es[0].1, into);
    FlattenStep(es, prefix, into);
  }

  const Two: Value := Obj(Plain, [("a", Obj(Plain, [("type", Func(NumberFn))])), ("b", Func(NumberFn))])
  const Five: Value := Obj(Plain, [("type", Func(ObjectIdFn)), ("ref", Str("Model"))])
  const FiveResolved: Value := Obj(Plain, [("type", Str("ObjectID")), ("ref", Str("Model"))])
  const FiveAgain: Value := Obj(Plain, [("type", Str("Object")), ("ref", Str("Model"))])

  /** The nested declaration of test/lib.schema.test.js:33-48, with the `_id`
      the constructor adds. */
  const Nested: Entries := [
    ("one", Func(StringFn)), ("two", Two), ("three", Arr([Func(StringFn)])),
    ("four", Func(DateFn)), ("five", Five), ("six", Func(ArrayFn)), ("_id", Func(ObjectIdFn))]

  /** The tables after each key of `Nested`. */
  const T1: Entries := [("one", Tagged("String"))]
  const T2: Entries := T1 + [("two.a", Tagged("Number")), ("two.b", Tagged("Number"))]
  const T3: Entries := T2 + [("three", ArrayOf("String"))]
  const T4: Entries := T3 + [("four", Tagged("Date"))]
  const T5: Entries := T4 + [("five", FiveResolved)]
  const T6: Entries := T5 + [("six", ArrayOf("Object"))]
  const T7: Entries := T6 + [("_id", Tagged("ObjectID"))]

  /** `two` expands to `two.a` and `two.b`, both `{type: 'Number'}`. */
  lemma TwoExpands()
    ensures var s := Entry("", "two", Two, T1); s.err.None? && s.into == T2
  {
    TwoChildren();
    TwoIsBranch();
    assert "" + "two" + "." == "two.";
    EntryBranch("", "two", Two, T1);
  }

  lemma TwoIsBranch()
    ensures IsBranch(Two)
  {
    assert Keys(Two.entries) == ["a", "b"];
    assert ConstructorOf(Two) == Func(ObjectFn);
    assert Get(Two.entries, "type") == Undefined;
  }

  lemma TwoChildren()
    ensures var w := Flatten(Two.entries, "two.", T1); w.err.None? && w.into == T2
  {
    TwoA();
    TwoB();
  }

  /** The table after `two.a`. */
  const TwoA1: Entries := T1 + [("two.a", Tagged("Number"))]

  lemma TwoA()
    ensures Flatten(Two.entries, "two.", T1).into == Flatten([("b", Func(NumberFn))], "two.", TwoA1).into
    ensures Flatten(Two.entries, "two.", T1).err == Flatten([("b", Func(NumberFn))], "two.", TwoA1).err
  {
    var es := Two.entries;
    NumberDescriptor();
    assert "two." + "a" == "two.a";
    assert Keys(T1) == ["one"];
    assert es[1..] == [("b", Func(NumberFn))];
    LeafStep(es, "two.", T1, TwoA1);
  }

  lemma TwoB()
    ensures var w := Flatten([("b", Func(NumberFn))], "two.", TwoA1); w.err.None? && w.into == T2
  {
    var rest := [("b", Func(NumberFn))];
    BareConstructor(NumberFn);
    assert "two." + "b" == "two.b";
    KeysAppend(T1, [("two.a", Tagged("Number"))]);
    assert Keys(T1) == ["one"];
    assert T2 == TwoA1 + [("two.b", Tagged("Number"))];
    assert rest[1..] == [];
    LeafStep(rest, "two.", TwoA1, T2);
  }

  /** `{type: Number}` is a leaf descriptor, resolved to `{type: 'Number'}`. */
  lemma NumberDescriptor()
    ensures var a := Obj(Plain, [("type", Func(NumberFn))]);
      !IsBranch(a) && Descriptor(a) == Tagged("Number")
  {
    assert [("type", Func(NumberFn))] == [("type", Func(NumberFn))] + [];
    NormalizeTagged(Plain, Func(NumberFn), []);
  }

  /** Walking `Nested` from key `k` on, starting from table `t`. */
  function From(k: nat, t: Entries): Walk
    requires k <= |Nested|
  {
    Flatten(Nested[k..], "", t)
  }

  /** The paths of the tables after each key. */
  lemma TableKeys()
    ensures Keys(T2) == ["one", "two.a", "two.b"]
    ensures Keys(T3) == ["one", "two.a", "two.b", "three"]
    ensures Keys(T4) == ["one", "two.a", "two.b", "three", "four"]
    ensures Keys(T5) == ["one", "two.a", "two.b", "three", "four", "five"]
    ensures Keys(T6) == ["one", "two.a", "two.b", "three", "four", "five", "six"]
  {
    KeysAppend(T1, [("two.a", Tagged("Number")), ("two.b", Tagged("Number"))]);
    KeysAppend(T2, [("three", ArrayOf("String"))]);
    KeysAppend(T3, [("four", Tagged("Date"))]);
    KeysAppend(T4, [("five", FiveResolved)]);
    KeysAppend(T5, [("six", ArrayOf("Object"))]);
  }

  lemma NestedOne()
    ensures From(0, []).into == From(1, T1).into && From(0, []).err == From(1, T1).err
  {
    BareConstructor(StringFn);
    assert Nested[0..] == Nested && Nested[1..] == Nested[0..][1..];
    assert "" + "one" == "one";
    LeafStep(Nested, "", [], T1);
  }

  lemma NestedTwo()
    ensures From(1, T1).into == From(2, T2).into && From(1, T1).err == From(2, T2).err
  {
    TwoExpands();
    var es := Nested[1..];
    assert es[0] == ("two", Two) && es[1..] == Nested[2..];
    FlattenStep(es, "", T1);
  }

  lemma NestedThree()
    ensures From(2, T2).into == From(3, T3).into && From(2, T2).err == From(3, T3).err
  {
    ArrayLiteral();
    var es := Nested[2..];
    assert es[0] == ("three", Arr([Func(StringFn)])) && es[1..] == Nested[3..];
    TableKeys();
    assert "" + "three" == "three";
    LeafStep(es, "", T2, T3);
  }

  lemma NestedFour()
    ensures From(3, T3).into == From(4, T4).into && From(3, T3).err == From(4, T4).err
  {
    BareConstructor(DateFn);
    var es := Nested[3..];
    assert es[0] == ("four", Func(DateFn)) && es[1..] == Nested[4..];
    TableKeys();
    assert "" + "four" == "four";
    LeafStep(es, "", T3, T4);
  }

  lemma NestedFive()
    ensures From(4, T4).into == From(5, T5).into && From(4, T4).err == From(5, T5).err
  {
    FivePasses();
    var es := Nested[4..];
    assert es[0] == ("five", Five) && es[1..] == Nested[5..];
    TableKeys();
    assert "" + "five" == "five";
    LeafStep(es, "", T4, T5);
  }

  lemma NestedSix()
    ensures From(5, T5).into == From(6, T6).into && From(5, T5).err == From(6, T6).err
  {
    BareArray();
    var es := Nested[5..];
    assert es[0] == ("six", Func(ArrayFn)) && es[1..] == Nested[6..];
    TableKeys();
    assert "" + "six" == "six";
    LeafStep(es, "", T5, T6);
  }

  lemma NestedId()
    ensures From(6, T6).into == T7 && From(6, T6).err.None?
  {
    BareConstructor(ObjectIdFn);
    var es := Nested[6..];
    assert es[0] == ("_id", Func(ObjectIdFn)) && es[1..] == [];
    TableKeys();
    assert "" + "_id" == "_id";
    LeafStep(es, "", T6, T7);
  }

  /** The paths test/lib.schema.test.js:49-58 expects, in declaration order. */
  lemma NestedPaths()
    ensures var w := Flatten(Nested, "", []);
      && w.err.None?
      && w.into == [
           ("one", Tagged("String")), ("two.a", Tagged("Number")), ("two.b", Tagged("Number")),
           ("three", ArrayOf("String")), ("four", Tagged("Date")), ("five", FiveResolved),
           ("six", ArrayOf("Object")), ("_id", Tagged("ObjectID"))]
  {
    NestedOne();
    NestedTwo();
    NestedThree();
    NestedFour();
    NestedFive();
    NestedSix();
    NestedId();
    assert Nested[0..] == Nested;
    TableIs();
  }

  /** The last table, entry by entry. */
  lemma TableIs()
    ensures T7 == [
      ("one", Tagged("String")), ("two.a", Tagged("Number")), ("two.b", Tagged("Number")),
      ("three", ArrayOf("String")), ("four", Tagged("Date")), ("five", FiveResolved),
      ("six", ArrayOf("Object")), ("_id", Tagged("ObjectID"))]
  {
    var e := [
      ("one", Tagged("String")), ("two.a", Tagged("Number")), ("two.b", Tagged("Number")),
      ("three", ArrayOf("String")), ("four", Tagged("Date")), ("five", FiveResolved),
      ("six", ArrayOf("Object")), ("_id", Tagged("ObjectID"))];
    assert T2 == e[..3];
    assert T3 == e[..4];
    assert T4 == e[..5];
    assert T5 == e[..6];
    assert T6 == e[..7];
    assert T7 == e[..8];
  }
}
