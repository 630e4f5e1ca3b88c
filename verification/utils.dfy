/** `extend(child, parent)` of lib/utils.js: the own enumerable properties
    of `parent` are copied onto `child`. A JavaScript object is modelled by
    its own properties and the enumerable properties it inherits through its
    prototype chain, each in enumeration order. */
module Utils {
  import opened Js

  /** An object as `for ... in` sees it: `own` lists its enumerable own
      properties (non-enumerable ones are never visited, so they are not
      held), `inherited` the enumerable properties it reaches through its
      prototype chain. */
  class JsObject {
    var own: Entries
    var inherited: Entries

    constructor (own: Entries, inherited: Entries)
      ensures this.own == own && this.inherited == inherited
    {
      this.own := own;
      this.inherited := inherited;
    }
  }

  /** The keys `for (var key in o)` visits: the own keys, then each inherited
      key no own property shadows. */
  function ForInKeys(own: Entries, inherited: Entries): (ks: seq<string>)
    ensures forall k :: k in ks <==> k in Keys(own) || k in Keys(inherited)
  {
    Keys(own) + Unshadowed(Keys(inherited), Keys(own))
  }

  function Unshadowed(ks: seq<string>, hidden: seq<string>): (r: seq<string>)
    ensures forall k :: k in r <==> k in ks && k !in hidden
  {
    if ks == [] then []
    else if ks[0] in hidden then Unshadowed(ks[1..], hidden)
    else [ks[0]] + Unshadowed(ks[1..], hidden)
  }

  /** The child's own properties after the loop has visited `keys`: each key
      the parent owns is assigned the parent's value; a key the parent only
      inherits is skipped. */
  function Copied(child: Entries, parent: Entries, keys: seq<string>): (r: Entries)
    ensures Keys(child) <= Keys(r)
  {
    if keys == [] then child
    else
      var c := Copied(child, parent, keys[..|keys| - 1]);
      var k := keys[|keys| - 1];
      if k in Keys(parent) then
        PutKeys(c, k, Get(parent, k));
        Put(c, k, Get(parent, k))
      else c
  }

  /** After the copy the child has the parent's value for every visited key
      the parent owns, and its own value for every other key. */
  lemma {:induction false} CopiedGet(child: Entries, parent: Entries, keys: seq<string>, k: string)
    ensures Get(Copied(child, parent, keys), k) ==
      if k in keys && k in Keys(parent) then Get(parent, k) else Get(child, k)
    decreases |keys|
  {
    if keys != [] {
      var init := keys[..|keys| - 1];
      CopiedGet(child, parent, init, k);
      assert keys == init + [keys[|keys| - 1]];
    }
  }

  /** The child keeps its keys in their order; the copied keys it lacked come
      after them. */
  lemma {:induction false} CopiedKeys(child: Entries, parent: Entries, keys: seq<string>)
    ensures Keys(child) <= Keys(Copied(child, parent, keys))
    ensures forall k :: k in Keys(Copied(child, parent, keys)) <==>
      k in Keys(child) || (k in keys && k in Keys(parent))
    decreases |keys|
  {
    if keys != [] {
      var init := keys[..|keys| - 1];
      var last := keys[|keys| - 1];
      CopiedKeys(child, parent, init);
      assert keys == init + [last];
      if last in Keys(parent) {
        PutKeys(Copied(child, parent, init), last, Get(parent, last));
      }
    }
  }

  /** Assigning a key the value it already has changes nothing. */
  lemma {:induction false} PutSame(m: Entries, k: string)
    requires k in Keys(m)
    ensures Put(m, k, Get(m, k)) == m
  {
    if m[0].0 != k {
      assert Keys(m) == [m[0].0] + Keys(m[1..]);
      PutSame(m[1..], k);
    }
  }

  /** Extending an object from itself leaves it as it was. */
  lemma {:induction false} CopiedSelf(m: Entries, keys: seq<string>)
    ensures Copied(m, m, keys) == m
    decreases |keys|
  {
    if keys != [] {
      CopiedSelf(m, keys[..|keys| - 1]);
      var k := keys[|keys| - 1];
      if k in Keys(m) {
        PutSame(m, k);
      }
    }
  }

  /** lib/utils.js:8-23. The prototype wiring of lines 14-21 is not modelled;
      `child` is returned. */
  method Extend(child: JsObject, parent: JsObject?) returns (r: JsObject)
    modifies child
    ensures r == child
    ensures child.inherited == old(child.inherited)
    ensures parent != null ==> parent.own == old(parent.own) && parent.inherited == old(parent.inherited)
    ensures parent == null ==> child.own == old(child.own)
    ensures parent != null ==>
      child.own == Copied(old(child.own), old(parent.own), ForInKeys(old(parent.own), old(parent.inherited)))
  {
    if parent != null {
      var keys := ForInKeys(parent.own, parent.inherited);
      ghost var c0 := child.own;
      ghost var p0 := parent.own;
      for i := 0 to |keys|
        invariant parent.own == p0 && parent.inherited == old(parent.inherited)
        invariant child.inherited == old(child.inherited)
        invariant parent == child ==> child.own == c0
        invariant parent != child ==> child.own == Copied(c0, p0, keys[..i])
      {
        assert keys[..i + 1][..i] == keys[..i];
        var key := keys[i];
        if key in Keys(parent.own) {
          if parent == child {
            PutSame(child.own, key);
          }
          child.own := Put(child.own, key, Get(parent.own, key));
        }
      }
      assert keys[..|keys|] == keys;
      if parent == child {
        CopiedSelf(c0, keys);
      }
    }
    r := child;
  }

  /** After `extend`, the child holds each of the parent's own properties
      with the parent's value and keeps its own value for every other key;
      what the parent only inherits is not copied. */
  lemma ExtendGet(child: Entries, parent: Entries, inherited: Entries, k: string)
    ensures Get(Copied(child, parent, ForInKeys(parent, inherited)), k) ==
      if k in Keys(parent) then Get(parent, k) else Get(child, k)
    ensures k in Keys(Copied(child, parent, ForInKeys(parent, inherited))) <==>
      k in Keys(child) || k in Keys(parent)
  {
    CopiedGet(child, parent, ForInKeys(parent, inherited), k);
    CopiedKeys(child, parent, ForInKeys(parent, inherited));
  }

  /** test/lib.utils.test.js:11-17: extending a function from an instance
      `{foo: 'bar'}` whose class adds no enumerable property gives it
      `foo` with the value `'bar'`. */
  lemma ExtendFromInstance(child: Entries)
    ensures Get(Copied(child, [("foo", Str("bar"))], ForInKeys([("foo", Str("bar"))], [])), "foo") == Str("bar")
  {
    ExtendGet(child, [("foo", Str("bar"))], [], "foo");
  }
}
