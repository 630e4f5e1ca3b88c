/** The `Schema` object of lib/schema.js: the imperative resolver
    (`_addToPath`, `_calculatePaths`), proved to compute the walk of module
    SchemaPaths, and the object whose `tree`, `paths` and `fields` the
    constructor and `addField` update. */
module Schemas {
  import opened Js
  import opened SchemaPaths
  import opened SchemaFacts

  /** `tree || {}` for the declaration handed to the constructor. */
  function TreeOf(declared: Value): Entries
    requires !Truthy(declared) || declared.Obj?
  {
    if Truthy(declared) then declared.entries else []
  }

  /** `tree._id = mongojs.ObjectId` */
  function WithId(tree: Entries): Entries {
    Put(tree, "_id", Func(ObjectIdFn))
  }

  /** The descriptor every schema holds for `_id`. */
  const IdDescriptor: Value := Obj(Plain, [("type", Str("ObjectID"))])

  /** `_addToPath(path, obj, into)`: the descriptor is rewritten in place and
      stored under `path`. Returns the declared value as it is afterwards
      (the same object, rewritten, when the caller declared a descriptor;
      untouched when a bare value was wrapped in a fresh `{type: v}`). */
  method AddToPath(path: string, v: Value, into: Entries) returns (slot: Value, into': Entries, err: Option<SchemaError>)
    requires !Nullish(v)
    ensures path in Reserved ==> err == Some(ReservedPath(path)) && slot == v && into' == into
    ensures path !in Reserved ==> err.None? && slot == SlotAfter(v) && into' == Put(into, path, Descriptor(v))
  {
    if path in Reserved {
      return v, into, Some(ReservedPath(path));
    }
    var obj := v;
    var wrapped := false;
    if !Truthy(TypeOf(obj)) {
      obj := Obj(Plain, [("type", obj)]);
      wrapped := true;
    }
    var t := TypeOf(obj);
    var es := obj.entries;
    if IsPrimitive(t) {
      es := Put(es, "type", Str(FnName(t.f)));
      if Get(es, "type") == Str("Array") {
        var el := Get(es, "elements");
        es := Put(es, "elements", if Truthy(el) then el else Str("Object"));
      }
    } else if t.Arr? {
      var tag := if |t.items| > 0 && IsPrimitive(t.items[0]) then FnName(t.items[0].f) else "Object";
      es := Put(es, "elements", Str(tag));
      es := Put(es, "type", Str("Array"));
    } else {
      es := Put(es, "type", Str("Object"));
    }
    obj := Obj(obj.cls, es);
    into' := Put(into, path, obj);
    slot := if wrapped then v else obj;
    err := None;
  }

  /** The body of the loop of `_calculatePaths` for one key: rejected when
      null, expanded recursively when a non-empty plain object that is not a
      descriptor, resolved as a leaf otherwise. */
  method ResolveKey(prefix: string, key: string, v: Value, into: Entries)
      returns (slot: Value, into': Entries, err: Option<SchemaError>)
    ensures Step(slot, into', err) == Entry(prefix, key, v, into)
    decreases Size(v), 0
  {
    if Nullish(v) {
      return v, into, Some(InvalidValue(prefix + key));
    }
    if IsObject(v) && ConstructorIsObject(v) && (!Truthy(TypeOf(v)) || Truthy(TypeOf(TypeOf(v)))) {
      if |v.entries| > 0 {
        ObjSize(v);
        var sub;
        sub, into', err := CalculatePaths(v.entries, prefix + key + ".", into);
        slot := Obj(v.cls, sub);
      } else {
        slot, into', err := AddToPath(prefix + key, v, into);
      }
    } else {
      slot, into', err := AddToPath(prefix + key, v, into);
    }
  }

  /** `_calculatePaths(obj, prefix, into)` over the entries `es` of `obj`:
      each key in turn, in key order, until one fails. Returns the entries as
      they are afterwards, the table and the error that ends the walk, if
      any. */
  method CalculatePaths(es: Entries, prefix: string, into: Entries)
      returns (es': Entries, into': Entries, err: Option<SchemaError>)
    ensures Walk(es', into', err) == Flatten(es, prefix, into)
    decreases EntriesSize(es), 1
  {
    var done: Entries := [];
    var cur := into;
    var i := 0;
    while i < |es|
      invariant 0 <= i <= |es|
      invariant var w := Flatten(es[i..], prefix, cur); Flatten(es, prefix, into) == Walk(done + w.entries, w.into, w.err)
    {
      var key := es[i].0;
      ghost var rest := es[i..];
      assert rest[0] == es[i] && rest[1..] == es[i + 1..];
      FlattenStep(rest, prefix, cur);
      EntriesSizeAt(es, i);
      var slot, next, e := ResolveKey(prefix, key, es[i].1, cur);
      if e.Some? {
        assert done + ([(key, slot)] + es[i + 1..]) == (done + [(key, slot)]) + es[i + 1..];
        return done + [(key, slot)] + es[i + 1..], next, e;
      }
      ghost var w := Flatten(es[i + 1..], prefix, next);
      assert done + ([(key, slot)] + w.entries) == (done + [(key, slot)]) + w.entries;
      done := done + [(key, slot)];
      cur := next;
      i := i + 1;
    }
    assert es[i..] == [];
    assert done + [] == done;
    return done, cur, None;
  }

  /** The identifier constructor, declared bare, resolves to
      `{type: 'ObjectID'}` and stays as it was in the declaration. */
  lemma IdEntry(into: Entries)
    ensures Entry("", "_id", Func(ObjectIdFn), into) == Step(Func(ObjectIdFn), Put(into, "_id", IdDescriptor), None)
  {
    IdDescriptorIs();
    var f := Func(ObjectIdFn);
    assert !Nullish(f) && !IsBranch(f);
    assert "" + "_id" == "_id";
  }

  lemma IdDescriptorIs()
    ensures Descriptor(Func(ObjectIdFn)) == IdDescriptor
  {
    assert [("type", Func(ObjectIdFn))] == [("type", Func(ObjectIdFn))] + [];
    NormalizeTagged(Plain, Func(ObjectIdFn), []);
  }

  /** No key other than `_id` itself writes the path `_id`. */
  lemma IdUntouched(k: string)
    requires k != "_id"
    ensures !Touches("" + k, "_id")
  {
    assert "" + k == k;
    assert '.' !in "_id";
    DotFree(k, "_id");
  }

  /** A path without a dot lies below no other path. */
  lemma DotFree(k: string, q: string)
    requires k != q && '.' !in q
    ensures !Touches(k, q)
  {
    DotAfterPrefix(k, q);
  }

  lemma DotAfterPrefix(k: string, q: string)
    ensures k + "." <= q ==> q[|k|] == '.'
  {
    if k + "." <= q {
      assert q[|k|] == (k + ".")[|k|];
    }
  }

  /** After construction `_id` is the identifier constructor in the tree,
      whatever the caller declared under `_id`, and resolves to
      `{type: 'ObjectID'}`. */
  lemma IdResolves(d: Entries)
    requires DistinctKeys(d)
    ensures var w := Flatten(WithId(d), "", []);
      w.err.None? ==> "_id" in Keys(w.into) && Get(w.into, "_id") == IdDescriptor
                      && Get(w.entries, "_id") == Func(ObjectIdFn)
  {
    var f := Func(ObjectIdFn);
    var es := WithId(d);
    PutKeys(d, "_id", f);
    PutDistinct(d, "_id", f);
    KeysMember(es, "_id");
    var i :| 0 <= i < |es| && es[i].0 == "_id";
    GetAt(es, i);
    var pre, post := es[..i], es[i + 1..];
    SplitAt(es, i);
    assert es[i] == ("_id", f);
    forall j | 0 <= j < |post| ensures post[j].0 != "_id" {
      assert post[j] == es[i + 1 + j];
    }
    IdPath(pre, post);
    IdSlot(pre, post);
  }

  /** `_id` between other top-level keys is stored as `{type: 'ObjectID'}`. */
  lemma IdPath(pre: Entries, post: Entries)
    requires forall j :: 0 <= j < |post| ==> post[j].0 != "_id"
    ensures var w := Flatten(pre + [("_id", Func(ObjectIdFn))] + post, "", []);
      w.err.None? ==> "_id" in Keys(w.into) && Get(w.into, "_id") == IdDescriptor
  {
    var f := Func(ObjectIdFn);
    FlattenSplit(pre, "_id", f, post, "", []);
    var w := Flatten(pre + [("_id", f)] + post, "", []);
    if w.err.None? {
      var wa := Flatten(pre, "", []);
      IdEntry(wa.into);
      var into1 := Put(wa.into, "_id", IdDescriptor);
      PutKeys(wa.into, "_id", IdDescriptor);
      forall j | 0 <= j < |post| ensures !Touches("" + post[j].0, "_id") {
        IdUntouched(post[j].0);
      }
      FlattenUntouched(post, "", into1, "_id");
    }
  }

  /** The walk leaves the identifier constructor under `_id` in the tree. */
  lemma IdSlot(pre: Entries, post: Entries)
    requires DistinctKeys(pre + [("_id", Func(ObjectIdFn))] + post)
    ensures var w := Flatten(pre + [("_id", Func(ObjectIdFn))] + post, "", []);
      w.err.None? ==> Get(w.entries, "_id") == Func(ObjectIdFn)
  {
    var f := Func(ObjectIdFn);
    var es := pre + [("_id", f)] + post;
    FlattenSplit(pre, "_id", f, post, "", []);
    var w := Flatten(es, "", []);
    if w.err.None? {
      var wa := Flatten(pre, "", []);
      IdEntry(wa.into);
      FlattenKeys(es, "", []);
      KeysDistinct(es, w.entries);
      GetMiddle(wa.entries, "_id", f, Flatten(post, "", Put(wa.into, "_id", IdDescriptor)).entries);
    }
  }

  /** `addField(name, T)` on a declaration that resolved: when `name` is new,
      the walk fails exactly when `name`'s own declaration is bad, and on
      success the previous paths keep their order and are followed by those
      of `name`; no previous path is lost. */
  lemma AddFieldPaths(tree: Entries, name: string, t: Value)
    requires name !in Keys(tree) && Flatten(tree, "", []).err.None?
    ensures var w := Flatten(tree, "", []); var w' := Flatten(Put(tree, name, t), "", []);
      var own := Entry("", name, t, []);
      && w'.err == own.err
      && (w'.err.None? ==>
            && Keys(w.into) <= Keys(w'.into)
            && forall q :: q in Keys(w'.into) <==> q in Keys(w.into) || q in Keys(own.into))
  {
    PutAppend(tree, name, t);
    FlattenConcat(tree, [(name, t)], "", []);
    var w := Flatten(tree, "", []);
    var s := Entry("", name, t, w.into);
    assert Flatten([(name, t)], "", w.into) == Walk([(name, s.slot)], s.into, s.err);
    EntryIndependent("", name, t, w.into);
  }

  /** A path table whose `shared` entries are the tree's own descriptor
      objects, read after the tree has been rewritten: a shared entry is that
      object as the tree now holds it, every other entry is as it was. */
  function Resync(paths: Entries, shared: map<string, Position>, tree: Entries): (r: Entries)
    ensures Keys(r) == Keys(paths)
    ensures forall q :: q !in shared ==> Get(r, q) == Get(paths, q)
    ensures forall q :: q in shared && q in Keys(paths) ==> Get(r, q) == At(tree, shared[q])
  {
    if paths == [] then []
    else
      var q := paths[0].0;
      [(q, if q in shared then At(tree, shared[q]) else paths[0].1)] + Resync(paths[1..], shared, tree)
  }

  /** The shared entries whose object is still in the tree once `tree[name]`
      has been replaced: those under a key other than `name`. */
  function Detach(shared: map<string, Position>, tree: Entries, name: string): map<string, Position> {
    map q | q in shared && shared[q] != [] && shared[q][0] < |tree| && tree[shared[q][0]].0 != name :: shared[q]
  }

  /** The invariant of a schema's state: `fields` lists the keys of `paths`,
      in order; `paths` is an object and names no reserved path; a shared
      path is a path of the table, and its entry is the object at its
      position in the tree. */
  ghost predicate Consistent(tree: Entries, paths: Entries, fields: seq<string>, shared: map<string, Position>) {
    && fields == Keys(paths)
    && DistinctKeys(paths)
    && (forall q :: q in fields ==> q !in Reserved)
    && (forall q :: q in shared ==> q in fields)
    && forall q :: q in shared ==> Get(paths, q) == At(tree, shared[q])
  }

  /** A walk over `tree` succeeds and yields `fields`. */
  ghost predicate Walks(tree: Entries, fields: seq<string>) {
    var w := Flatten(tree, "", []);
    w.err.None? && Keys(w.into) == fields
  }

  /** The state a walk over `es` that succeeds leaves: the rewritten tree, the
      table, its keys and the paths shared with the tree. It is consistent,
      and walking the rewritten tree again gives the same paths. */
  lemma WalkConsistent(es: Entries)
    requires Flatten(es, "", []).err.None?
    ensures var w := Flatten(es, "", []);
      && Consistent(w.entries, w.into, Keys(w.into), Shared(es, "", [], 0, map[]))
      && Walks(w.entries, Keys(w.into))
  {
    FlattenDistinct(es, "", []);
    FlattenAvoidsReserved(es, "", []);
    FlattenLeafPaths(es, "", []);
    SharedLeaves(es, "", [], 0, map[]);
    SharedStored(es);
    RecomputeKeepsPaths(es);
  }

  /** What `new Schema(declared)` leaves when its walk succeeds: a
      consistent state whose tree walks again to the same fields, and, when
      the declared keys are distinct, the `_id` the constructor adds. */
  lemma Created(d: Entries)
    ensures var w := Flatten(WithId(d), "", []);
      w.err.None? ==>
        && Consistent(w.entries, w.into, Keys(w.into), Shared(WithId(d), "", [], 0, map[]))
        && Walks(w.entries, Keys(w.into))
        && (DistinctKeys(d) ==> Get(w.into, "_id") == IdDescriptor && Get(w.entries, "_id") == Func(ObjectIdFn))
  {
    if Flatten(WithId(d), "", []).err.None? {
      WalkConsistent(WithId(d));
      if DistinctKeys(d) {
        IdResolves(d);
      }
    }
  }

  /** Assigning `tree[name]` and dropping the shared paths under `name` keeps
      a consistent state consistent. */
  lemma DetachConsistent(tree: Entries, paths: Entries, fields: seq<string>, shared: map<string, Position>,
                         name: string, t: Value)
    requires Consistent(tree, paths, fields, shared)
    ensures Consistent(Put(tree, name, t), paths, fields, Detach(shared, tree, name))
  {
    var d := Detach(shared, tree, name);
    forall q | q in d ensures Get(paths, q) == At(Put(tree, name, t), d[q]) {
      AtPut(tree, name, t, d[q]);
    }
  }

  class Schema {
    var tree: Entries
    var paths: Entries
    var fields: seq<string>
    /** The paths whose entry is a descriptor object of `tree`, with its
        position there: `paths` and `tree` hold the same object, so a later
        walk over the tree rewrites what `paths` holds as well. */
    var shared: map<string, Position>

    /** The schema's state is consistent. */
    ghost predicate Valid()
      reads this
    {
      Consistent(tree, paths, fields, shared)
    }

    /** A walk over the tree as it now is succeeds and yields the fields. */
    ghost predicate Current()
      reads this
    {
      Walks(tree, fields)
    }

    /** The prototype's defaults. */
    constructor Empty()
      ensures tree == [] && paths == [] && fields == [] && shared == map[]
      ensures Valid()
    {
      tree, paths, fields, shared := [], [], [], map[];
    }

    /** `new Schema(tree)`: the declaration (or `{}`) gets `_id`, and `paths`
        and `fields` are computed from it. On an error no schema is made; the
        caller's declaration has nonetheless been rewritten up to that point. */
    static method Create(declared: Value) returns (s: Schema?, err: Option<SchemaError>)
      requires !Truthy(declared) || declared.Obj?
      ensures var w := Flatten(WithId(TreeOf(declared)), "", []);
        && err == w.err
        && (err.Some? ==> s == null)
        && (err.None? ==> s != null && fresh(s) && s.tree == w.entries && s.paths == w.into
                          && s.shared == Shared(WithId(TreeOf(declared)), "", [], 0, map[])
                          && s.Valid() && s.Current())
      ensures err.None? && DistinctKeys(TreeOf(declared)) ==>
        s != null && Get(s.paths, "_id") == IdDescriptor && Get(s.tree, "_id") == Func(ObjectIdFn)
    {
      var r := new Schema.Empty();
      var t0 := WithId(TreeOf(declared));
      r.tree := t0;
      var p, e := r.GetPaths();
      if e.Some? {
        return null, e;
      }
      Created(TreeOf(declared));
      r.Install(p, Shared(t0, "", [], 0, map[]));
      return r, None;
    }

    /** `this.paths = ...; this.fields = this.getFields();`: stores a table
        the tree walks to, and the shared map that goes with it. */
    method Install(p: Entries, sh: map<string, Position>)
      requires Consistent(tree, p, Keys(p), sh) && Walks(tree, Keys(p))
      modifies this
      ensures tree == old(tree) && paths == p && fields == Keys(p) && shared == sh
      ensures Valid() && Current()
    {
      paths := p;
      fields := GetFields();
      shared := sh;
    }

    /** `getFields()` */
    function GetFields(): (fs: seq<string>)
      reads this
      ensures |fs| == |paths| && forall i :: 0 <= i < |paths| ==> fs[i] == paths[i].0
    {
      KeysAll(paths);
      Keys(paths)
    }

    /** `getPaths()`: a fresh table from a walk over `tree`, which the walk
        rewrites in place. `this.paths` is not assigned, but the descriptor
        objects it shares with the tree are rewritten with the tree. */
    method GetPaths() returns (p: Entries, err: Option<SchemaError>)
      modifies this
      ensures var w := Flatten(old(tree), "", []); tree == w.entries && p == w.into && err == w.err
      ensures paths == Resync(old(paths), shared, tree)
      ensures fields == old(fields) && shared == old(shared)
      ensures old(Valid()) ==> Valid()
    {
      var es;
      es, p, err := CalculatePaths(tree, "", []);
      tree := es;
      paths := Resync(paths, shared, tree);
      if DistinctKeys(old(paths)) {
        KeysDistinct(old(paths), paths);
      }
    }

    /** `addField(name, T)`: the tree gets `name`, then `paths` and `fields`
        are recomputed. If the walk throws, the tree keeps the new key and
        whatever was rewritten; `fields` and the keys of `paths` keep their
        old values, and the entries `paths` shares with the tree read as the
        tree now holds them. */
    method AddField(name: string, t: Value) returns (err: Option<SchemaError>)
      requires Valid()
      modifies this
      ensures Valid()
      ensures var w := Flatten(Put(old(tree), name, t), "", []);
        && tree == w.entries && err == w.err
        && (err.None? ==> paths == w.into && shared == Shared(Put(old(tree), name, t), "", [], 0, map[]) && Current())
        && (err.Some? ==>
              && shared == Detach(old(shared), old(tree), name) && paths == Resync(old(paths), shared, tree)
              && fields == old(fields))
      ensures old(Current()) && name !in Keys(old(tree)) ==>
        && err == Entry("", name, t, []).err
        && (err.None? ==>
              && old(fields) <= fields
              && forall q :: q in fields <==> q in old(fields) || q in Keys(Entry("", name, t, []).into))
    {
      var t0 := Put(tree, name, t);
      DetachConsistent(tree, paths, fields, shared, name, t);
      shared := Detach(shared, tree, name);
      tree := t0;
      var p, e := GetPaths();
      err := e;
      if e.None? {
        WalkConsistent(t0);
        Install(p, Shared(t0, "", [], 0, map[]));
      }
      if old(Current()) && name !in Keys(old(tree)) {
        AddFieldPaths(old(tree), name, t);
      }
    }
  }

  lemma KeysAll(m: Entries)
    ensures forall i :: 0 <= i < |m| ==> Keys(m)[i] == m[i].0
  {
    forall i | 0 <= i < |m| ensures Keys(m)[i] == m[i].0 {
      KeysAt(m, i);
    }
  }
}
