/** What the walk of lib/schema.js guarantees: which paths it creates, which
    it leaves alone, when it fails and which path the failure names, and that
    the descriptors it rewrites in place do not change the path names of a
    later walk. */
module SchemaFacts {
  import opened Js
  import opened SchemaPaths

  /** The walk keeps the declaration's keys and their order. */
  lemma {:induction false} FlattenKeys(es: Entries, prefix: string, into: Entries)
    ensures Keys(Flatten(es, prefix, into).entries) == Keys(es)
    decreases |es|
  {
    if es != [] {
      var s := Entry(prefix, es[0].0, es[0].1, into);
      KeysCons((es[0].0, s.slot), es[1..]);
      KeysCons(es[0], es[1..]);
      assert es == [es[0]] + es[1..];
      if s.err.None? {
        var w := Flatten(es[1..], prefix, s.into);
        FlattenKeys(es[1..], prefix, s.into);
        KeysCons((es[0].0, s.slot), w.entries);
      }
    }
  }

  /** What a key contributes does not depend on the table it is added to: the
      declaration afterwards and the error are the same, and the keys of the
      table are the old keys together with those the key would add alone. */
  lemma {:induction false} EntryIndependent(prefix: string, key: string, v: Value, into: Entries)
    ensures var s := Entry(prefix, key, v, into); var s0 := Entry(prefix, key, v, []);
      && s.slot == s0.slot && s.err == s0.err
      && forall q :: q in Keys(s.into) <==> q in Keys(into) || q in Keys(s0.into)
    decreases Size(v), 0
  {
    var path := prefix + key;
    if Nullish(v) {
    } else if IsBranch(v) {
      ObjSize(v);
      FlattenIndependent(v.entries, path + ".", into);
    } else if path !in Reserved {
      PutKeys(into, path, Descriptor(v));
      PutKeys([], path, Descriptor(v));
    }
  }

  lemma {:induction false} FlattenIndependent(es: Entries, prefix: string, into: Entries)
    ensures var w := Flatten(es, prefix, into); var w0 := Flatten(es, prefix, []);
      && w.entries == w0.entries && w.err == w0.err
      && forall q :: q in Keys(w.into) <==> q in Keys(into) || q in Keys(w0.into)
    decreases EntriesSize(es), 1
  {
    if es != [] {
      EntriesSizeUnfold(es);
      var s := Entry(prefix, es[0].0, es[0].1, into);
      var s0 := Entry(prefix, es[0].0, es[0].1, []);
      EntryIndependent(prefix, es[0].0, es[0].1, into);
      if s.err.None? {
        FlattenIndependent(es[1..], prefix, s.into);
        FlattenIndependent(es[1..], prefix, s0.into);
      }
    }
  }

  /** A key at `path` writes only `path` itself or paths below `path + "."`. */
  predicate Touches(path: string, q: string) {
    q == path || path + "." <= q
  }

  lemma ChildTouches(path: string, child: string, q: string)
    requires Touches(path + "." + child, q)
    ensures Touches(path, q)
  {
    var pd := path + ".";
    assert path + "." + child == pd + child;
    assert pd <= pd + child;
    if q != pd + child {
      assert pd + child + "." <= q;
      assert (pd + child + ".")[..|pd|] == pd;
      assert q[..|pd|] == pd;
    }
  }

  lemma {:induction false} EntryUntouched(prefix: string, key: string, v: Value, into: Entries, q: string)
    requires !Touches(prefix + key, q)
    ensures var s := Entry(prefix, key, v, into);
      Get(s.into, q) == Get(into, q) && (q in Keys(s.into) <==> q in Keys(into))
    decreases Size(v), 0
  {
    var path := prefix + key;
    if Nullish(v) {
    } else if IsBranch(v) {
      ObjSize(v);
      forall i | 0 <= i < |v.entries| ensures !Touches(path + "." + v.entries[i].0, q) {
        if Touches(path + "." + v.entries[i].0, q) {
          ChildTouches(path, v.entries[i].0, q);
        }
      }
      FlattenUntouched(v.entries, path + ".", into, q);
    } else if path !in Reserved {
      PutKeys(into, path, Descriptor(v));
    }
  }

  lemma {:induction false} FlattenUntouched(es: Entries, prefix: string, into: Entries, q: string)
    requires forall i :: 0 <= i < |es| ==> !Touches(prefix + es[i].0, q)
    ensures var w := Flatten(es, prefix, into);
      Get(w.into, q) == Get(into, q) && (q in Keys(w.into) <==> q in Keys(into))
    decreases EntriesSize(es), 1
  {
    if es != [] {
      EntriesSizeUnfold(es);
      var s := Entry(prefix, es[0].0, es[0].1, into);
      EntryUntouched(prefix, es[0].0, es[0].1, into, q);
      if s.err.None? {
        assert forall i :: 0 <= i < |es[1..]| ==> es[1..][i] == es[i + 1];
        FlattenUntouched(es[1..], prefix, s.into, q);
      }
    }
  }

  /** A successful walk adds no reserved path. */
  lemma {:induction false} EntryAvoidsReserved(prefix: string, key: string, v: Value, into: Entries)
    ensures var s := Entry(prefix, key, v, into);
      s.err.None? ==> forall q :: q in Keys(s.into) ==> q in Keys(into) || q !in Reserved
    decreases Size(v), 0
  {
    var path := prefix + key;
    if Nullish(v) {
    } else if IsBranch(v) {
      ObjSize(v);
      FlattenAvoidsReserved(v.entries, path + ".", into);
    } else if path !in Reserved {
      PutKeys(into, path, Descriptor(v));
    }
  }

  lemma {:induction false} FlattenAvoidsReserved(es: Entries, prefix: string, into: Entries)
    ensures var w := Flatten(es, prefix, into);
      w.err.None? ==> forall q :: q in Keys(w.into) ==> q in Keys(into) || q !in Reserved
    decreases EntriesSize(es), 1
  {
    if es != [] {
      EntriesSizeUnfold(es);
      var s := Entry(prefix, es[0].0, es[0].1, into);
      EntryAvoidsReserved(prefix, es[0].0, es[0].1, into);
      if s.err.None? {
        FlattenAvoidsReserved(es[1..], prefix, s.into);
      }
    }
  }

  /** A declared key resolves without error: its value is not null or
      undefined, a branch's children all resolve, and a leaf's full path is
      not reserved. */
  ghost predicate EntryOk(prefix: string, key: string, v: Value)
    decreases v
  {
    && !Nullish(v)
    && if IsBranch(v) then
         forall i :: 0 <= i < |v.entries| ==> EntryOk(prefix + key + ".", v.entries[i].0, v.entries[i].1)
       else
         prefix + key !in Reserved
  }

  /** The declared key at `prefix + key` is, or contains, a declaration that
      raises `e`: a null or undefined value at exactly the path `e` names, or
      a leaf at a reserved path. */
  ghost predicate Fails(prefix: string, key: string, v: Value, e: SchemaError)
    decreases v
  {
    || (Nullish(v) && e == InvalidValue(prefix + key))
    || (!Nullish(v) && !IsBranch(v) && prefix + key in Reserved && e == ReservedPath(prefix + key))
    || (!Nullish(v) && IsBranch(v) &&
        exists i :: 0 <= i < |v.entries| && Fails(prefix + key + ".", v.entries[i].0, v.entries[i].1, e))
  }

  /** Resolving a key fails exactly when some declaration under it is bad, and
      the error names one such declaration. */
  lemma {:induction false} EntryError(prefix: string, key: string, v: Value, into: Entries)
    ensures var s := Entry(prefix, key, v, into);
      && (s.err.None? <==> EntryOk(prefix, key, v))
      && (s.err.Some? ==> Fails(prefix, key, v, s.err.value))
    decreases Size(v), 0
  {
    var path := prefix + key;
    if !Nullish(v) && IsBranch(v) {
      ObjSize(v);
      FlattenError(v.entries, path + ".", into);
      var w := Flatten(v.entries, path + ".", into);
      if w.err.Some? {
        var i :| 0 <= i < |v.entries| && Fails(path + ".", v.entries[i].0, v.entries[i].1, w.err.value);
      }
    }
  }

  /** The walk fails exactly when some key of the declaration is bad, and the
      error it reports comes from the first bad key, in key order. */
  lemma {:induction false} FlattenError(es: Entries, prefix: string, into: Entries)
    ensures var w := Flatten(es, prefix, into);
      && (w.err.None? <==> forall i :: 0 <= i < |es| ==> EntryOk(prefix, es[i].0, es[i].1))
      && (w.err.Some? ==> exists i :: 0 <= i < |es| && Fails(prefix, es[i].0, es[i].1, w.err.value)
                                      && forall j :: 0 <= j < i ==> EntryOk(prefix, es[j].0, es[j].1))
    decreases EntriesSize(es), 1
  {
    if es != [] {
      EntriesSizeUnfold(es);
      var s := Entry(prefix, es[0].0, es[0].1, into);
      EntryError(prefix, es[0].0, es[0].1, into);
      if s.err.Some? {
        assert Fails(prefix, es[0].0, es[0].1, s.err.value);
      } else {
        var rest := es[1..];
        FlattenError(rest, prefix, s.into);
        var w := Flatten(rest, prefix, s.into);
        assert forall i :: 0 <= i < |rest| ==> rest[i] == es[i + 1];
        if w.err.None? {
          forall i | 0 <= i < |es| ensures EntryOk(prefix, es[i].0, es[i].1) {
            if i > 0 {
              assert es[i] == rest[i - 1];
            }
          }
        } else {
          var i :| 0 <= i < |rest| && Fails(prefix, rest[i].0, rest[i].1, w.err.value)
                   && forall j :: 0 <= j < i ==> EntryOk(prefix, rest[j].0, rest[j].1);
          assert Fails(prefix, es[i + 1].0, es[i + 1].1, w.err.value);
          forall j | 0 <= j < i + 1 ensures EntryOk(prefix, es[j].0, es[j].1) {
            if j > 0 {
              assert es[j] == rest[j - 1];
            }
          }
        }
      }
    }
  }

  /** `s` is what the walk may leave in the declaration in place of `v`: a
      resolved descriptor object has its `type` (and `elements`) rewritten,
      but nothing the classification at lib/schema.js:44-56 looks at changes,
      down to the `name` of an own `constructor`. */
  ghost predicate Rewrites(v: Value, s: Value)
    decreases v
  {
    && Truthy(v) == Truthy(s)
    && Nullish(v) == Nullish(s)
    && Truthy(TypeOf(v)) == Truthy(TypeOf(s))
    && (!v.Obj? ==> s == v)
    && (v.Obj? ==> s.Obj? && (NameOf(v) == Str("Object") <==> NameOf(s) == Str("Object")))
    && IsBranch(v) == IsBranch(s)
    && (IsBranch(v) ==>
          && s.cls == v.cls && |s.entries| == |v.entries|
          && forall i :: 0 <= i < |v.entries| ==>
               s.entries[i].0 == v.entries[i].0 && Rewrites(v.entries[i].1, s.entries[i].1))
  }

  ghost predicate RewritesAll(es: Entries, ss: Entries) {
    && |ss| == |es|
    && forall i :: 0 <= i < |es| ==> ss[i].0 == es[i].0 && Rewrites(es[i].1, ss[i].1)
  }

  lemma {:induction false} RewritesGet(es: Entries, ss: Entries, k: string)
    requires RewritesAll(es, ss)
    ensures Rewrites(Get(es, k), Get(ss, k))
    decreases |es|
  {
    if es != [] && es[0].0 != k {
      assert forall i :: 0 <= i < |es| - 1 ==> es[1..][i] == es[i + 1] && ss[1..][i] == ss[i + 1];
      RewritesGet(es[1..], ss[1..], k);
    }
  }

  /** Resolving a leaf leaves in the declaration a value the next walk
      classifies the same way. */
  lemma LeafRewrites(v: Value)
    requires !Nullish(v) && !IsBranch(v)
    ensures Rewrites(v, SlotAfter(v))
  {
    if Truthy(TypeOf(v)) {
      NormalizedRewrites(v);
    }
  }

  /** A declared descriptor object is resolved into one that is still a
      leaf, with the same `name`. */
  lemma NormalizedRewrites(v: Value)
    requires v.Obj? && Truthy(TypeOf(v)) && !IsBranch(v)
    ensures Rewrites(v, Normalize(v))
  {
    var r := Normalize(v);
    assert TypeOf(r) == Str(TypeTag(TypeOf(v))) && Prop(r, "name") == Prop(v, "name") by {
      NormalizeResolves(v);
    }
    assert TypeTag(TypeOf(v)) != "";
    assert NameOf(r) == NameOf(v);
    assert !IsBranch(r);
  }

  /** A successful walk leaves every declared value rewritten, never
      reclassified. */
  lemma {:induction false} EntryRewrites(prefix: string, key: string, v: Value, into: Entries)
    ensures var s := Entry(prefix, key, v, into); s.err.None? ==> Rewrites(v, s.slot)
    decreases Size(v), 0
  {
    var path := prefix + key;
    if Nullish(v) {
    } else if IsBranch(v) {
      ObjSize(v);
      var w := Flatten(v.entries, path + ".", into);
      FlattenRewrites(v.entries, path + ".", into);
      if w.err.None? {
        FlattenKeys(v.entries, path + ".", into);
        BranchRewrites(v, w.entries);
      }
    } else if path !in Reserved {
      LeafRewrites(v);
    }
  }

  /** A branch whose entries are rewritten one by one, under the same keys,
      is rewritten as a whole. */
  lemma BranchRewrites(v: Value, ws: Entries)
    requires IsBranch(v) && RewritesAll(v.entries, ws) && Keys(ws) == Keys(v.entries)
    ensures Rewrites(v, Obj(v.cls, ws))
  {
    var s := Obj(v.cls, ws);
    RewritesGet(v.entries, ws, "type");
    RewritesGet(v.entries, ws, "name");
    RewritesGet(v.entries, ws, "constructor");
    assert Rewrites(TypeOf(v), TypeOf(s));
    if Truthy(TypeOf(v)) {
      assert Truthy(TypeOf(TypeOf(v))) == Truthy(TypeOf(TypeOf(s)));
    }
    ConstructorRewrites(v, s);
  }

  /** Rewriting an object's own `constructor` keeps what the branch test
      reads of it. */
  lemma ConstructorRewrites(v: Value, s: Value)
    requires v.Obj? && s.Obj? && s.cls == v.cls && Keys(s.entries) == Keys(v.entries)
    requires Rewrites(Get(v.entries, "constructor"), Get(s.entries, "constructor"))
    ensures ConstructorIsObject(v) == ConstructorIsObject(s)
  {
    var cv, cs := ConstructorOf(v), ConstructorOf(s);
    assert Truthy(cv) == Truthy(cs);
    assert NameOf(cv) == Str("Object") <==> NameOf(cs) == Str("Object");
  }

  lemma {:induction false} FlattenRewrites(es: Entries, prefix: string, into: Entries)
    ensures var w := Flatten(es, prefix, into); w.err.None? ==> RewritesAll(es, w.entries)
    decreases EntriesSize(es), 1
  {
    if es != [] {
      EntriesSizeUnfold(es);
      var s := Entry(prefix, es[0].0, es[0].1, into);
      EntryRewrites(prefix, es[0].0, es[0].1, into);
      FlattenStep(es, prefix, into);
      if s.err.None? {
        FlattenRewrites(es[1..], prefix, s.into);
        var w := Flatten(es[1..], prefix, s.into);
        if w.err.None? {
          RewritesCons(es, s.slot, w.entries);
        }
      }
    }
  }

  lemma RewritesCons(es: Entries, slot: Value, rest: Entries)
    requires es != [] && Rewrites(es[0].1, slot) && RewritesAll(es[1..], rest)
    ensures RewritesAll(es, [(es[0].0, slot)] + rest)
  {
    var ws := [(es[0].0, slot)] + rest;
    forall i | 0 <= i < |es| ensures ws[i].0 == es[i].0 && Rewrites(es[i].1, ws[i].1) {
      if i > 0 {
        assert ws[i] == rest[i - 1] && es[i] == es[1..][i - 1];
      }
    }
  }

  /** Walking a rewritten declaration reports the same error and adds the same
      paths, in the same order, as walking the original. */
  lemma {:induction false} EntryStable(prefix: string, key: string, v: Value, s: Value, into: Entries, into': Entries)
    requires Rewrites(v, s) && Keys(into) == Keys(into')
    ensures var a := Entry(prefix, key, v, into); var b := Entry(prefix, key, s, into');
      a.err == b.err && Keys(a.into) == Keys(b.into)
    decreases Size(v), 0
  {
    var path := prefix + key;
    if Nullish(v) {
    } else if IsBranch(v) {
      ObjSize(v);
      FlattenStable(v.entries, s.entries, path + ".", into, into');
    } else if path !in Reserved {
      PutKeys(into, path, Descriptor(v));
      PutKeys(into', path, Descriptor(s));
    }
  }

  lemma {:induction false} FlattenStable(es: Entries, ss: Entries, prefix: string, into: Entries, into': Entries)
    requires RewritesAll(es, ss) && Keys(into) == Keys(into')
    ensures var a := Flatten(es, prefix, into); var b := Flatten(ss, prefix, into');
      a.err == b.err && Keys(a.into) == Keys(b.into)
    decreases EntriesSize(es), 1
  {
    if es != [] {
      EntriesSizeUnfold(es);
      var a := Entry(prefix, es[0].0, es[0].1, into);
      var b := Entry(prefix, ss[0].0, ss[0].1, into');
      EntryStable(prefix, es[0].0, es[0].1, ss[0].1, into, into');
      if a.err.None? {
        assert forall i :: 0 <= i < |es| - 1 ==> es[1..][i] == es[i + 1] && ss[1..][i] == ss[i + 1];
        FlattenStable(es[1..], ss[1..], prefix, a.into, b.into);
      }
    }
  }

  /** The aliasing of lib/schema.js:67-83: recomputing the paths of a
      declaration the resolver has already rewritten succeeds again and yields
      the same path names in the same order. */
  lemma RecomputeKeepsPaths(es: Entries)
    ensures var w := Flatten(es, "", []); var w' := Flatten(w.entries, "", []);
      w.err.None? ==> w'.err.None? && Keys(w'.into) == Keys(w.into)
  {
    FlattenRewrites(es, "", []);
    var w := Flatten(es, "", []);
    if w.err.None? {
      FlattenStable(es, w.entries, "", [], []);
    }
  }

  /** A table entry as a walk stores it: an object whose `type` is one of
      the tags. */
  ghost predicate Resolved(d: Value) {
    d.Obj? && TypeOf(d).Str? && TypeOf(d).s in Vocabulary
  }

  ghost predicate TableResolved(m: Entries) {
    forall i :: 0 <= i < |m| ==> Resolved(m[i].1)
  }

  lemma {:induction false} PutResolved(m: Entries, k: string, d: Value)
    requires TableResolved(m) && Resolved(d)
    ensures TableResolved(Put(m, k, d))
  {
    if m != [] && m[0].0 != k {
      PutResolved(m[1..], k, d);
    }
  }

  /** Every entry a walk stores is a resolved descriptor. */
  lemma {:induction false} EntryResolved(prefix: string, key: string, v: Value, into: Entries)
    requires TableResolved(into)
    ensures TableResolved(Entry(prefix, key, v, into).into)
    decreases Size(v), 0
  {
    var path := prefix + key;
    if Nullish(v) {
    } else if IsBranch(v) {
      ObjSize(v);
      FlattenResolved(v.entries, path + ".", into);
    } else if path !in Reserved {
      NormalizeResolves(Declared(v));
      PutResolved(into, path, Descriptor(v));
    }
  }

  lemma {:induction false} FlattenResolved(es: Entries, prefix: string, into: Entries)
    requires TableResolved(into)
    ensures TableResolved(Flatten(es, prefix, into).into)
    decreases EntriesSize(es), 1
  {
    if es != [] {
      EntriesSizeUnfold(es);
      EntryResolved(prefix, es[0].0, es[0].1, into);
      var s := Entry(prefix, es[0].0, es[0].1, into);
      if s.err.None? {
        FlattenResolved(es[1..], prefix, s.into);
      }
    }
  }

  /** A resolved descriptor under a new, unreserved path is a leaf: it is
      stored under that path, appended to the table. */
  lemma ResolvedLeaf(q: string, d: Value, into: Entries)
    requires Resolved(d) && q !in Reserved && q !in Keys(into)
    ensures var s := Entry("", q, d, into); s.err.None? && Keys(s.into) == Keys(into) + [q]
  {
    assert "" !in Vocabulary;
    assert !IsBranch(d);
    assert "" + q == q;
    PutAppend(into, q, Descriptor(d));
    KeysAppend(into, [(q, Descriptor(d))]);
  }

  /** Walking a flat table of resolved descriptors adds its paths, in order. */
  lemma {:induction false} FlatAgain(p: Entries, into: Entries)
    requires TableResolved(p) && DistinctKeys(p)
    requires forall q :: q in Keys(p) ==> q !in Reserved && q !in Keys(into)
    ensures var w := Flatten(p, "", into); w.err.None? && Keys(w.into) == Keys(into) + Keys(p)
    decreases |p|
  {
    if p != [] {
      KeysCons(p[0], p[1..]);
      assert p == [p[0]] + p[1..];
      ResolvedLeaf(p[0].0, p[0].1, into);
      var s := Entry("", p[0].0, p[0].1, into);
      assert p[0].0 !in Keys(p[1..]) by {
        forall j | 0 <= j < |p[1..]| ensures p[1..][j].0 != p[0].0 {
          assert p[1..][j] == p[j + 1];
        }
        KeysMember(p[1..], p[0].0);
      }
      FlatAgain(p[1..], s.into);
      Assoc3(Keys(into), [p[0].0], Keys(p[1..]));
    }
  }

  lemma Assoc3(a: seq<string>, b: seq<string>, c: seq<string>)
    ensures (a + b) + c == a + (b + c)
  {
  }

  /** Flattening the already flat table again keeps exactly its paths: every
      entry is a resolved descriptor, hence a leaf, under a distinct,
      unreserved path. */
  lemma FlatTableIdempotent(es: Entries)
    requires Flatten(es, "", []).err.None?
    ensures var p := Flatten(es, "", []).into; var w := Flatten(p, "", []);
      w.err.None? && Keys(w.into) == Keys(p)
  {
    var p := Flatten(es, "", []).into;
    FlattenResolved(es, "", []);
    FlattenDistinct(es, "", []);
    FlattenAvoidsReserved(es, "", []);
    FlatAgain(p, []);
  }

  /** One step of the walk: the first key, then the rest from the table it
      leaves, unless it failed. */
  lemma FlattenStep(es: Entries, prefix: string, into: Entries)
    requires es != []
    ensures var s := Entry(prefix, es[0].0, es[0].1, into);
      Flatten(es, prefix, into) ==
        if s.err.Some? then Walk([(es[0].0, s.slot)] + es[1..], s.into, s.err)
        else var w := Flatten(es[1..], prefix, s.into); Walk([(es[0].0, s.slot)] + w.entries, w.into, w.err)
  {
  }

  /** A key whose value is a leaf: resolved and stored, unless its path is
      reserved. */
  lemma EntryLeaf(prefix: string, key: string, v: Value, into: Entries)
    requires !Nullish(v) && !IsBranch(v) && prefix + key !in Reserved
    ensures Entry(prefix, key, v, into) == Step(SlotAfter(v), Put(into, prefix + key, Descriptor(v)), None)
  {
  }

  /** A key whose value is a branch: its children are walked under `key.`. */
  lemma EntryBranch(prefix: string, key: string, v: Value, into: Entries)
    requires IsBranch(v)
    ensures var w := Flatten(v.entries, prefix + key + ".", into);
      Entry(prefix, key, v, into) == Step(Obj(v.cls, w.entries), w.into, w.err)
  {
  }

  /** The walk over two lists of keys is the walk over the first followed by
      the walk over the second, continuing from the first one's table. */
  lemma {:induction false} FlattenConcat(a: Entries, b: Entries, prefix: string, into: Entries)
    ensures var wa := Flatten(a, prefix, into); var r := Flatten(a + b, prefix, into);
      if wa.err.Some? then r == Walk(wa.entries + b, wa.into, wa.err)
      else var wb := Flatten(b, prefix, wa.into); r == Walk(wa.entries + wb.entries, wb.into, wb.err)
    decreases |a|
  {
    if a == [] {
      assert a + b == b;
    } else {
      var ab := a + b;
      assert ab[0] == a[0] && ab[1..] == a[1..] + b;
      var e := a[0];
      var s := Entry(prefix, e.0, e.1, into);
      var first := [(e.0, s.slot)];
      FlattenStep(a, prefix, into);
      FlattenStep(ab, prefix, into);
      if s.err.None? {
        FlattenConcat(a[1..], b, prefix, s.into);
        var wa := Flatten(a[1..], prefix, s.into);
        if wa.err.None? {
          Assoc(first, wa.entries, Flatten(b, prefix, wa.into).entries);
        } else {
          Assoc(first, wa.entries, b);
        }
      } else {
        Assoc(first, a[1..], b);
      }
    }
  }

  lemma Assoc(x: Entries, y: Entries, z: Entries)
    ensures x + (y + z) == (x + y) + z
  {
  }

  /** A successful walk over `pre`, one key and `post` is the walk over each
      part in turn. */
  lemma FlattenSplit(pre: Entries, k: string, v: Value, post: Entries, prefix: string, into: Entries)
    ensures var w := Flatten(pre + [(k, v)] + post, prefix, into); var wa := Flatten(pre, prefix, into);
      var s := Entry(prefix, k, v, wa.into); var wp := Flatten(post, prefix, s.into);
      w.err.None? ==> wa.err.None? && s.err.None? && w == Walk(wa.entries + [(k, s.slot)] + wp.entries, wp.into, None)
  {
    var rest := [(k, v)] + post;
    Assoc(pre, [(k, v)], post);
    FlattenConcat(pre, rest, prefix, into);
    var wa := Flatten(pre, prefix, into);
    if wa.err.None? {
      assert rest[0] == (k, v) && rest[1..] == post;
      FlattenStep(rest, prefix, wa.into);
      var s := Entry(prefix, k, v, wa.into);
      var wp := Flatten(post, prefix, s.into);
      Assoc(wa.entries, [(k, s.slot)], wp.entries);
    }
  }

  /** The table the walk builds is a JavaScript object: no path twice. */
  lemma {:induction false} EntryDistinct(prefix: string, key: string, v: Value, into: Entries)
    requires DistinctKeys(into)
    ensures DistinctKeys(Entry(prefix, key, v, into).into)
    decreases Size(v), 0
  {
    var path := prefix + key;
    if Nullish(v) {
    } else if IsBranch(v) {
      ObjSize(v);
      FlattenDistinct(v.entries, path + ".", into);
    } else if path !in Reserved {
      PutDistinct(into, path, Descriptor(v));
    }
  }

  lemma {:induction false} FlattenDistinct(es: Entries, prefix: string, into: Entries)
    requires DistinctKeys(into)
    ensures DistinctKeys(Flatten(es, prefix, into).into)
    decreases EntriesSize(es), 1
  {
    if es != [] {
      EntriesSizeUnfold(es);
      var s := Entry(prefix, es[0].0, es[0].1, into);
      EntryDistinct(prefix, es[0].0, es[0].1, into);
      if s.err.None? {
        FlattenDistinct(es[1..], prefix, s.into);
      }
    }
  }

  /** Every path a key adds is its own path or lies below it; a branch adds
      only paths below `key.`, never `key` itself. */
  lemma {:induction false} EntryScope(prefix: string, key: string, v: Value, into: Entries)
    ensures var s := Entry(prefix, key, v, into);
      forall q :: q in Keys(s.into) && q !in Keys(into) ==>
        if IsBranch(v) then prefix + key + "." <= q else q == prefix + key
    decreases Size(v), 0
  {
    var path := prefix + key;
    if Nullish(v) {
    } else if IsBranch(v) {
      ObjSize(v);
      FlattenScope(v.entries, path + ".", into);
    } else if path !in Reserved {
      PutKeys(into, path, Descriptor(v));
    }
  }

  lemma {:induction false} FlattenScope(es: Entries, prefix: string, into: Entries)
    ensures var w := Flatten(es, prefix, into);
      forall q :: q in Keys(w.into) && q !in Keys(into) ==> prefix <= q
    decreases EntriesSize(es), 1
  {
    if es != [] {
      EntriesSizeUnfold(es);
      var s := Entry(prefix, es[0].0, es[0].1, into);
      EntryScope(prefix, es[0].0, es[0].1, into);
      var path := prefix + es[0].0;
      forall q | q in Keys(s.into) && q !in Keys(into) ensures prefix <= q {
        assert path <= q;
        assert q[..|prefix|] == path[..|prefix|];
      }
      if s.err.None? {
        FlattenScope(es[1..], prefix, s.into);
      }
    }
  }

  /** A leaf that resolves is stored under its full path, and a descriptor
      object the caller declared is then the same object as the table entry. */
  lemma LeafStored(prefix: string, key: string, v: Value, into: Entries)
    requires !Nullish(v) && !IsBranch(v) && prefix + key !in Reserved
    ensures var s := Entry(prefix, key, v, into);
      && s.err.None? && prefix + key in Keys(s.into)
      && Get(s.into, prefix + key) == Descriptor(v)
      && (Truthy(TypeOf(v)) ==> s.slot == Descriptor(v))
  {
    PutKeys(into, prefix + key, Descriptor(v));
  }

  /** The full path of every leaf of a declaration object, in key order: a
      branch contributes the leaf paths below `key.`, any other value its own
      path. A description of what the walk creates that does not build a
      table. */
  function LeafPaths(es: Entries, prefix: string): seq<string>
    decreases EntriesSize(es), 1
  {
    if es == [] then []
    else
      EntriesSizeUnfold(es);
      Reached(prefix, es[0].0, es[0].1) + LeafPaths(es[1..], prefix)
  }

  /** The leaf paths of one declared key. */
  function Reached(prefix: string, key: string, v: Value): seq<string>
    decreases Size(v), 0
  {
    if IsBranch(v) then
      ObjSize(v);
      LeafPaths(v.entries, prefix + key + ".")
    else [prefix + key]
  }

  /** A key that resolves adds exactly its leaf paths to the table. */
  lemma {:induction false} EntryLeafPaths(prefix: string, key: string, v: Value, into: Entries)
    ensures var s := Entry(prefix, key, v, into);
      s.err.None? ==> forall q :: q in Keys(s.into) <==> q in Keys(into) || q in Reached(prefix, key, v)
    decreases Size(v), 0
  {
    var path := prefix + key;
    if Nullish(v) {
    } else if IsBranch(v) {
      ObjSize(v);
      FlattenLeafPaths(v.entries, path + ".", into);
    } else if path !in Reserved {
      PutKeys(into, path, Descriptor(v));
    }
  }

  /** A walk that succeeds leaves in the table exactly the paths it found
      there and the full path of every leaf of the declaration: each declared
      leaf reaches `paths`, and nothing else does. */
  lemma {:induction false} FlattenLeafPaths(es: Entries, prefix: string, into: Entries)
    ensures var w := Flatten(es, prefix, into);
      w.err.None? ==> forall q :: q in Keys(w.into) <==> q in Keys(into) || q in LeafPaths(es, prefix)
    decreases EntriesSize(es), 1
  {
    if es != [] {
      EntriesSizeUnfold(es);
      var s := Entry(prefix, es[0].0, es[0].1, into);
      EntryLeafPaths(prefix, es[0].0, es[0].1, into);
      if s.err.None? {
        FlattenLeafPaths(es[1..], prefix, s.into);
      }
    }
  }

  /** A list is what comes before a position, the entry there, and the rest. */
  lemma SplitAt(m: Entries, i: nat)
    requires i < |m|
    ensures m == m[..i] + [m[i]] + m[i + 1..]
  {
    assert m[..i] + [m[i]] == m[..i + 1];
  }

  /** After a walk that succeeds, a leaf declared at position `i` is in the
      table with its descriptor, unless a later key reaches the same path. */
  lemma FlattenLeafStored(es: Entries, prefix: string, into: Entries, i: nat)
    requires i < |es| && !IsBranch(es[i].1)
    requires forall j :: i < j < |es| ==> !Touches(prefix + es[j].0, prefix + es[i].0)
    ensures var w := Flatten(es, prefix, into);
      w.err.None? ==> prefix + es[i].0 in Keys(w.into) && Get(w.into, prefix + es[i].0) == Descriptor(es[i].1)
  {
    var (k, v) := es[i];
    var pre, post := es[..i], es[i + 1..];
    SplitAt(es, i);
    FlattenSplit(pre, k, v, post, prefix, into);
    var w := Flatten(es, prefix, into);
    if w.err.None? {
      var wa := Flatten(pre, prefix, into);
      var s := Entry(prefix, k, v, wa.into);
      assert !Nullish(v) && prefix + k !in Reserved;
      LeafStored(prefix, k, v, wa.into);
      forall j | 0 <= j < |post| ensures !Touches(prefix + post[j].0, prefix + k) {
        assert post[j] == es[i + 1 + j];
      }
      FlattenUntouched(post, prefix, s.into, prefix + k);
    }
  }

  /** Only leaf paths are shared with the declaration. */
  lemma {:induction false} SharedByLeaves(prefix: string, key: string, v: Value, here: Position, acc: map<string, Position>)
    ensures forall q :: q in SharedBy(prefix, key, v, here, acc) ==> q in acc || q in Reached(prefix, key, v)
    decreases Size(v), 0
  {
    if IsBranch(v) {
      ObjSize(v);
      SharedLeaves(v.entries, prefix + key + ".", here, 0, acc);
    }
  }

  lemma {:induction false} SharedLeaves(es: Entries, prefix: string, at: Position, from: nat, acc: map<string, Position>)
    ensures forall q :: q in Shared(es, prefix, at, from, acc) ==> q in acc || q in LeafPaths(es, prefix)
    decreases EntriesSize(es), 1
  {
    if es != [] {
      EntriesSizeUnfold(es);
      var acc' := SharedBy(prefix, es[0].0, es[0].1, at + [from], acc);
      SharedByLeaves(prefix, es[0].0, es[0].1, at + [from], acc);
      SharedLeaves(es[1..], prefix, at, from + 1, acc');
    }
  }

  /** No path of `acc` sits below a key of the object at `at` from index
      `from` on: those keys are not walked yet. */
  ghost predicate FreshFrom(acc: map<string, Position>, at: Position, from: nat) {
    forall q :: q in acc && |at| < |acc[q]| && acc[q][..|at|] == at ==> acc[q][|at|] < from
  }

  /** What walking the `n` keys from index `from` of the object at `at` does
      to the shared paths and the table: each path of `m` either keeps its
      position in `acc` and its table entry, or sits below one of those keys
      and is stored as the object there, `es` being their rewritten
      entries. */
  ghost predicate PlacedIn(m: map<string, Position>, acc: map<string, Position>, into: Entries, into': Entries,
                           at: Position, from: nat, n: nat, es: Entries) {
    forall q :: q in m ==>
      || (q in acc && m[q] == acc[q] && Get(into', q) == Get(into, q))
      || (&& |at| < |m[q]| && m[q][..|at|] == at && from <= m[q][|at|] < from + n
          && Get(into', q) == At(es, [m[q][|at|] - from] + m[q][|at| + 1..]))
  }

  /** One key that resolves, at index `from` of the object at `at`: the paths
      it shares are stored as the objects below it, where its rewritten value
      now sits. */
  lemma {:induction false} EntryShared(prefix: string, key: string, v: Value, into: Entries, at: Position, from: nat,
                                       acc: map<string, Position>)
    requires Entry(prefix, key, v, into).err.None? && FreshFrom(acc, at, from)
    ensures var s := Entry(prefix, key, v, into);
      PlacedIn(SharedBy(prefix, key, v, at + [from], acc), acc, into, s.into, at, from, 1, [(key, s.slot)])
    decreases Size(v), 1
  {
    if IsBranch(v) {
      var path := prefix + key;
      ObjSize(v);
      var w := Flatten(v.entries, path + ".", into);
      assert Entry(prefix, key, v, into) == Step(Obj(v.cls, w.entries), w.into, w.err);
      assert SharedBy(prefix, key, v, at + [from], acc) == Shared(v.entries, path + ".", at + [from], 0, acc);
      BranchShared(prefix, key, v, into, at, from, acc);
    } else {
      LeafShared(prefix, key, v, into, at, from, acc);
    }
  }

  /** The branch case: the object's keys are walked under `key.`, one level
      below index `from`. */
  lemma {:induction false} BranchShared(prefix: string, key: string, v: Value, into: Entries, at: Position, from: nat,
                                        acc: map<string, Position>)
    requires v.Obj? && Flatten(v.entries, prefix + key + ".", into).err.None? && FreshFrom(acc, at, from)
    ensures var w := Flatten(v.entries, prefix + key + ".", into);
      PlacedIn(Shared(v.entries, prefix + key + ".", at + [from], 0, acc), acc, into, w.into, at, from, 1,
               [(key, Obj(v.cls, w.entries))])
    decreases Size(v), 0
  {
    var path := prefix + key;
    ObjSize(v);
    var w := Flatten(v.entries, path + ".", into);
    FreshBelow(at, from, acc);
    FlattenShared(v.entries, path + ".", into, at + [from], 0, acc);
    FlattenKeys(v.entries, path + ".", into);
    BelowKey(at, from, key, v.cls, w.entries, into, w.into, acc, Shared(v.entries, path + ".", at + [from], 0, acc));
  }

  /** The leaf case: a truthy `type` shares the declared object itself,
      anything else is wrapped in a fresh descriptor and shares nothing. */
  lemma LeafShared(prefix: string, key: string, v: Value, into: Entries, at: Position, from: nat,
                   acc: map<string, Position>)
    requires !IsBranch(v) && Entry(prefix, key, v, into).err.None?
    ensures var s := Entry(prefix, key, v, into);
      PlacedIn(SharedBy(prefix, key, v, at + [from], acc), acc, into, s.into, at, from, 1, [(key, s.slot)])
  {
    var path := prefix + key;
    var s := Entry(prefix, key, v, into);
    assert s == Step(SlotAfter(v), Put(into, path, Descriptor(v)), None);
    if Truthy(TypeOf(v)) {
      assert Declared(v) == v;
      assert SharedBy(prefix, key, v, at + [from], acc) == acc[path := at + [from]];
      PlacedOne(acc[path := at + [from]], acc, into, s.into, at, from, path, [(key, s.slot)]);
    } else {
      assert SharedBy(prefix, key, v, at + [from], acc) == acc - {path};
      PlacedOne(acc - {path}, acc, into, s.into, at, from, path, [(key, s.slot)]);
    }
  }

  /** One walked key, at index `from`: the table changes only at `path`, and
      the path is either dropped from the shared map or placed at that key. */
  lemma PlacedOne(m: map<string, Position>, acc: map<string, Position>, into: Entries, into': Entries,
                  at: Position, from: nat, path: string, e: Entries)
    requires |e| == 1
    requires forall q :: q != path ==> Get(into', q) == Get(into, q)
    requires m == acc - {path} || (m == acc[path := at + [from]] && Get(into', path) == e[0].1)
    ensures PlacedIn(m, acc, into, into', at, from, 1, e)
  {
    var here := at + [from];
    assert here[..|at|] == at && here[|at|] == from;
    assert [here[|at|] - from] + here[|at| + 1..] == [0];
  }

  /** Nothing is shared below the key at index `from` before it is walked. */
  lemma FreshBelow(at: Position, from: nat, acc: map<string, Position>)
    requires FreshFrom(acc, at, from)
    ensures FreshFrom(acc, at + [from], 0)
  {
    forall q | q in acc ensures !(|at + [from]| < |acc[q]| && acc[q][..|at + [from]|] == at + [from]) {
      var here, p := at + [from], acc[q];
      if |here| < |p| {
        assert p[..|here|][..|at|] == p[..|at|];
        assert p[..|here|][|at|] == p[|at|];
      }
    }
  }

  /** Once the key at index `from` is walked, nothing is shared below the
      keys from `from + 1` on. */
  lemma FreshNext(at: Position, from: nat, acc: map<string, Position>, m1: map<string, Position>,
                  into: Entries, into1: Entries, e: Entries)
    requires FreshFrom(acc, at, from) && PlacedIn(m1, acc, into, into1, at, from, 1, e)
    ensures FreshFrom(m1, at, from + 1)
  {
  }

  /** The paths placed below the key at index `from`, read from inside the
      object under that key. */
  lemma BelowKey(at: Position, from: nat, key: string, cls: Class, es: Entries, into: Entries, into': Entries,
                 acc: map<string, Position>, m: map<string, Position>)
    requires PlacedIn(m, acc, into, into', at + [from], 0, |es|, es)
    ensures PlacedIn(m, acc, into, into', at, from, 1, [(key, Obj(cls, es))])
  {
    var here := at + [from];
    forall q | q in m && !(q in acc && m[q] == acc[q] && Get(into', q) == Get(into, q))
      ensures && |at| < |m[q]| && m[q][..|at|] == at && from <= m[q][|at|] < from + 1
              && Get(into', q) == At([(key, Obj(cls, es))], [m[q][|at|] - from] + m[q][|at| + 1..])
    {
      var p := m[q];
      assert p[..|here|][..|at|] == p[..|at|] && p[..|here|][|at|] == p[|at|];
      var r := p[|here|..];
      assert p[|at| + 1..] == r == [p[|here|] - 0] + p[|here| + 1..];
      assert ([0] + r)[1..] == r;
    }
  }

  /** The first key and the keys after it, read in the whole object. */
  lemma NextKey(at: Position, from: nat, n: nat, k: string, slot: Value, rest: Entries,
                into: Entries, into1: Entries, into2: Entries, acc: map<string, Position>,
                m1: map<string, Position>, m: map<string, Position>)
    requires PlacedIn(m1, acc, into, into1, at, from, 1, [(k, slot)])
    requires PlacedIn(m, m1, into1, into2, at, from + 1, n, rest)
    ensures PlacedIn(m, acc, into, into2, at, from, n + 1, [(k, slot)] + rest)
  {
    forall q | q in m && !(q in acc && m[q] == acc[q] && Get(into2, q) == Get(into, q))
      ensures && |at| < |m[q]| && m[q][..|at|] == at && from <= m[q][|at|] < from + n + 1
              && Get(into2, q) == At([(k, slot)] + rest, [m[q][|at|] - from] + m[q][|at| + 1..])
    {
      var p := m[q];
      if q in m1 && p == m1[q] && Get(into2, q) == Get(into1, q) {
        // placed by the first key
        assert ([(k, slot)] + rest)[0] == (k, slot);
      } else {
        // placed by a later key
        var j := p[|at|] - from - 1;
        if j < |rest| {
          assert ([(k, slot)] + rest)[j + 1] == rest[j];
        }
      }
    }
  }

  /** A walk that succeeds over the keys from index `from` of the object at
      `at`: the paths it shares are stored as the objects below those keys
      in the rewritten entries. */
  lemma {:induction false} FlattenShared(es: Entries, prefix: string, into: Entries, at: Position, from: nat,
                                         acc: map<string, Position>)
    requires Flatten(es, prefix, into).err.None? && FreshFrom(acc, at, from)
    ensures var w := Flatten(es, prefix, into);
      PlacedIn(Shared(es, prefix, at, from, acc), acc, into, w.into, at, from, |es|, w.entries)
    decreases EntriesSize(es), 2
  {
    if es != [] {
      EntriesSizeUnfold(es);
      var (k, v) := es[0];
      var s := Entry(prefix, k, v, into);
      var m1 := SharedBy(prefix, k, v, at + [from], acc);
      assert s.err.None?;
      EntryShared(prefix, k, v, into, at, from, acc);
      FreshNext(at, from, acc, m1, into, s.into, [(k, s.slot)]);
      FlattenShared(es[1..], prefix, s.into, at, from + 1, m1);
      var w' := Flatten(es[1..], prefix, s.into);
      assert Flatten(es, prefix, into) == Walk([(k, s.slot)] + w'.entries, w'.into, w'.err);
      assert Shared(es, prefix, at, from, acc) == Shared(es[1..], prefix, at, from + 1, m1);
      NextKey(at, from, |es| - 1, k, s.slot, w'.entries, into, s.into, w'.into, acc, m1,
              Shared(es[1..], prefix, at, from + 1, m1));
    }
  }

  /** After a walk over a whole declaration that succeeds, every shared path
      is stored in the table as the object at its position in the rewritten
      declaration. */
  lemma SharedStored(es: Entries)
    requires Flatten(es, "", []).err.None?
    ensures var w := Flatten(es, "", []); var m := Shared(es, "", [], 0, map[]);
      forall q :: q in m ==> Get(w.into, q) == At(w.entries, m[q])
  {
    var m := Shared(es, "", [], 0, map[]);
    FlattenShared(es, "", [], [], 0, map[]);
    forall q | q in m ensures m[q] == [m[q][0] - 0] + m[q][1..] {
    }
  }

  /** Assigning `tree[name]` leaves what sits under every other key. */
  lemma AtPut(tree: Entries, name: string, t: Value, pos: Position)
    requires pos != [] && pos[0] < |tree| && tree[pos[0]].0 != name
    ensures At(Put(tree, name, t), pos) == At(tree, pos)
  {
    PutOther(tree, name, t, pos[0]);
  }
}
