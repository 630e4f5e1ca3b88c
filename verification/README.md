# mongojs-models in Dafny

A model of the core of mongojs-models, a small object-document mapper over a
document-store driver. It covers three parts:

- **The schema path resolver** (`lib/schema.js`). A `Schema` takes a nested
  field-declaration tree. It adds the identifier field `_id` and flattens the
  tree into `paths`, a table from dotted path to resolved descriptor
  `{type: tag, elements?: tag, ...metadata}`. `fields` is the key list of that
  table, and `addField` recomputes both.
- **The Model's data-shaping logic** (`lib/model.js`). This is the
  constructor's projection of an attribute map onto the schema's fields,
  `toJSON`, the hydration of store results into instances, the callback
  wrapper that routes results through that hydration, the choice of which
  static methods are wrapped, and `remove`'s verdict.
- **`utils.extend`** (`lib/utils.js`), which copies a parent object's own
  properties onto a child.

JavaScript values are the datatype `Js.Value`. An object is an ordered list of
`(key, value)` entries:

- the list order is the order `Object.keys` and `for ... in` enumerate keys;
- assigning an existing key keeps its position;
- assigning a new key appends it.

The modules follow the source:

- `Js` (js.dfy) holds values, property reads and writes, and a size measure.
- `SchemaPaths` (schema_paths.dfy) holds the resolver as pure functions:
  `Entry` resolves one declared key and `Flatten` walks a declaration object.
- `SchemaFacts` (schema_facts.dfy) holds the properties of the walk.
- `Schemas` (schema.dfy) holds the imperative `_addToPath` and
  `_calculatePaths`, each proved to compute the walk. It also holds the class
  `Schema` with its `tree`, `paths`, `fields` and `shared`.
- `SchemaExamples` (schema_examples.dfy) holds the declarations the tests use
  and what they resolve to.
- `Models` (model.dfy) holds the Model layer.
- `Utils` (utils.dfy) holds `extend`.

The resolver rewrites descriptor objects the caller declared: `obj.type` and
`obj.elements` are assigned on the very object that `tree` still holds, and
that object is what `paths` stores. The model tracks both sides of that
sharing:

- The walk returns the declaration as it is afterwards, and `Schema.tree` is
  replaced by it. A second walk, as `addField` makes, therefore reads the
  string `'ObjectID'` where the constructor used to be and resolves it to
  `'Object'` (`SchemaExamples.RecomputeLosesObjectId`). Path names are
  unaffected (`SchemaFacts.RecomputeKeepsPaths`).
- `Schema.shared` records which entries of `paths` are descriptor objects of
  the tree, and where in the tree they sit (`SchemaPaths.Shared`). A position
  is the list of key indices, in enumeration order, that leads from the top
  of the tree to the object (`SchemaPaths.At`); a walk keeps every key in
  place, so a position stays valid across walks. The schema's invariant
  (`Schemas.Consistent`) says that every shared entry of `paths` is the
  object at its position. After every walk those entries are read again from
  the rewritten tree (`Schemas.Resync`). So `getPaths()`, and an `addField`
  that throws, change what the old `paths` holds even though they do not
  assign it (`SchemaExamples.SharedEntryFollowsTree`). Before it walks,
  `addField` forgets the positions under the key it overwrites
  (`Schemas.Detach`), since the object there is no longer in the tree.

A Model instance inherits from `Model.prototype` and `Object.prototype`.
`toJSON` reads `this._fields` and picks keys along that chain
(`Models.ToJson`). An instance whose schema declares a field `_fields` can
therefore shadow the captured field list (`Models.OwnFieldsShadowCapture`).

Where the project's design notes and the code disagree, the model follows
the code:

- `_mapResults` turns every truthy result into an instance. It does not pass
  through a record without an identifier.
- `remove` hands its callback `result && result.n === 1`. For a falsy result
  that is the result itself, not `false`.
- There is no validation, pruning or default filling in this code.

## Model

| member | source | states |
|---|---|---|
| SchemaPaths.TypeTag | lib/schema.js:71-81 | a declared type resolves to one of the six tags String, Number, Array, Object, Date, ObjectID |
| SchemaPaths.ElementTag | lib/schema.js:76-77 | an array literal's element tag is in the same vocabulary |
| SchemaPaths.IsBranch | lib/schema.js:48-49 | a declaration expands only if it is an object with keys whose `type` is neither a recognised constructor nor a non-empty string |
| SchemaPaths.OwnConstructorLeaf | lib/schema.js:48 | an object whose own `constructor` is truthy and not named `Object` is a leaf; a falsy own `constructor` passes the constructor test, so such an object is classified by the `type` and emptiness tests alone |
| SchemaPaths.Normalize | lib/schema.js:67-81 | resolving keeps the object an object of the declared object's class |
| SchemaPaths.Entry | lib/schema.js:44-56 | resolving a key never removes or reorders a path already in the table |
| SchemaPaths.Flatten | lib/schema.js:35-58 | a walk never removes or reorders a path already in the table |
| SchemaPaths.NormalizeResolves | lib/schema.js:67-83 | the resolved descriptor keeps every key but `type` and `elements`; `type` is the tag of the declared type; an Array type always gets a truthy `elements`: the element tag for an array literal, the declared `elements` for the `Array` constructor when it is truthy and `'Object'` when it is not; a non-Array type keeps `elements` as declared |
| SchemaPaths.NormalizeTagged | lib/schema.js:71-72 | a descriptor whose type does not resolve to `Array` keeps its shape; only the value of `type` is replaced by the tag, for a recognised constructor and for `'Object'` alike |
| SchemaPaths.NormalizeKeys | lib/schema.js:67-83 | resolving adds no key except `type` and, for an Array tag, `elements` |
| SchemaFacts.FlattenKeys | lib/schema.js:39-57 | the walk leaves the declaration's keys as they were, in order |
| SchemaFacts.EntryIndependent | lib/schema.js:35-58 | what one key resolves to does not depend on the paths already in the table; the new table is the old one plus that key's own paths |
| SchemaFacts.FlattenIndependent | lib/schema.js:35-58 | the same for a whole declaration object |
| SchemaFacts.EntryUntouched | lib/schema.js:48-56 | a key never adds or changes a path that is neither its own path nor below `path.` |
| SchemaFacts.FlattenUntouched | lib/schema.js:41-57 | a walk leaves alone every path that none of its keys reaches |
| SchemaFacts.EntryAvoidsReserved | lib/schema.js:60-65 | a key that resolves adds no reserved path |
| SchemaFacts.FlattenAvoidsReserved | lib/schema.js:60-65 | a walk that succeeds adds no reserved path |
| SchemaFacts.EntryError | lib/schema.js:44-46 | a key fails exactly when some declaration under it is null or undefined or is a leaf at a reserved full path, and the error names such a declaration with its full dotted path |
| SchemaFacts.FlattenError | lib/schema.js:41-57 | a walk fails exactly when some key is bad, and the error comes from the first bad key in key order |
| SchemaFacts.RewritesGet | lib/schema.js:67-83 | the in-place rewriting keeps what classification reads, key by key |
| SchemaFacts.LeafRewrites | lib/schema.js:67-83 | a leaf's rewritten declaration classifies as the original did |
| SchemaFacts.EntryRewrites | lib/schema.js:48-56 | a key that resolves leaves a declaration that classifies the same way |
| SchemaFacts.FlattenRewrites | lib/schema.js:41-57 | the same for a whole declaration object |
| SchemaFacts.EntryStable | lib/schema.js:48-56 | resolving a rewritten declaration gives the same error and the same path names |
| SchemaFacts.FlattenStable | lib/schema.js:41-57 | the same for a whole declaration object |
| SchemaFacts.RecomputeKeepsPaths | lib/schema.js:21-25 | recomputing over the rewritten tree succeeds again with the same path names in the same order |
| SchemaFacts.FlattenConcat | lib/schema.js:41-57 | a walk over two runs of keys is the walk over the first, continued by the walk over the second unless the first failed |
| SchemaFacts.FlattenSplit | lib/schema.js:41-57 | a successful walk splits at any key into the walk before it, that key, and the walk after |
| SchemaFacts.EntryDistinct | lib/schema.js:83 | the table never holds a path twice |
| SchemaFacts.FlattenDistinct | lib/schema.js:41-57 | the same for a whole walk |
| SchemaFacts.EntryScope | lib/schema.js:48-56 | a branch adds only paths below `key.`, never `key` itself; a leaf adds only its own path |
| SchemaFacts.FlattenScope | lib/schema.js:50 | every path a walk adds starts with its prefix |
| SchemaFacts.LeafStored | lib/schema.js:83 | a resolved leaf is in the table under its full path with its descriptor, and a declared descriptor object is that same object afterwards |
| SchemaFacts.EntryLeafPaths | lib/schema.js:44-56 | a key that resolves adds exactly the full paths of its leaves, as listed by `Reached` without building a table |
| SchemaFacts.FlattenLeafPaths | lib/schema.js:41-57 | a walk that succeeds leaves in the table exactly the paths it found there and the full path of every declared leaf (`LeafPaths`): each leaf reaches `paths` and nothing else does |
| SchemaFacts.FlattenLeafStored | lib/schema.js:55 | after a walk that succeeds, a declared leaf that no later key reaches is in the table under its full path with its resolved descriptor |
| SchemaFacts.SharedByLeaves | lib/schema.js:67-83 | a key shares with the declaration only its own leaf paths |
| SchemaFacts.SharedLeaves | lib/schema.js:67-83 | a walk shares with the declaration only leaf paths of it |
| SchemaFacts.EntryShared | lib/schema.js:48-56 | every path one key shares with the declaration is stored in the table as the object now at its position below that key; a path it does not touch keeps its position and its entry |
| SchemaFacts.FlattenShared | lib/schema.js:41-57 | the same for the keys of an object from a given index on |
| SchemaFacts.SharedStored | lib/schema.js:35-83 | after a whole walk that succeeds, every shared path's table entry is the object at its position in the rewritten declaration |
| SchemaFacts.AtPut | lib/schema.js:22 | assigning a top-level key leaves the object at every position under another key |
| SchemaFacts.EntryResolved | lib/schema.js:67-83 | every entry a key stores is an object whose `type` is one of the six tags |
| SchemaFacts.FlattenResolved | lib/schema.js:41-57 | the same for a whole walk |
| SchemaFacts.ResolvedLeaf | lib/schema.js:48-55 | a resolved descriptor is a leaf: under a new, unreserved path it is stored there and appended to the table |
| SchemaFacts.FlatAgain | lib/schema.js:41-57 | walking a table of resolved descriptors with distinct unreserved paths succeeds and appends exactly those paths, in order |
| SchemaFacts.FlatTableIdempotent | lib/schema.js:35-57 | walking the table a successful walk produced, as a declaration, succeeds and gives back the same paths in the same order |
| SchemaFacts.SplitAt | lib/schema.js:41 | a key list is the keys before a position, the key there and the rest |
| Schemas.AddToPath | lib/schema.js:62-84 | a reserved full path raises the reserved-name error and changes nothing; otherwise the descriptor is normalised in place and stored under the path |
| Schemas.ResolveKey | lib/schema.js:44-56 | one iteration of the loop body computes `Entry` |
| Schemas.CalculatePaths | lib/schema.js:35-58 | the loop computes the walk `Flatten`: the rewritten declaration, the path table and the first error |
| Schemas.IdEntry | lib/schema.js:6 | `_id` holding the identifier constructor resolves to `{type: 'ObjectID'}` |
| Schemas.IdDescriptorIs | lib/schema.js:71-72 | the identifier constructor's descriptor is `{type: 'ObjectID'}` |
| Schemas.IdPath | lib/schema.js:6-7 | wherever `_id` sits among the keys, a successful walk stores `{type: 'ObjectID'}` under `_id`, since no later key reaches that path |
| Schemas.IdSlot | lib/schema.js:6 | a successful walk leaves the identifier constructor under `_id` in the tree |
| Schemas.IdUntouched | lib/schema.js:48-56 | no other top-level key reaches the path `_id` |
| Schemas.DotFree | lib/schema.js:50 | a key reaches no other dot-free path |
| Schemas.IdResolves | lib/schema.js:5-7 | whatever the caller declared under `_id`, the tree holds the identifier constructor there and `paths._id` is `{type: 'ObjectID'}` |
| Schemas.AddFieldPaths | lib/schema.js:21-25 | adding a new name to a declaration that resolved fails exactly when that name's own declaration is bad; on success the old paths keep their order and the new ones follow them; no old path is lost |
| Schemas.Resync | lib/schema.js:83 | re-reading a table after a walk keeps its keys in order, gives each shared path the object now at its position in the tree, and leaves every other entry as it was |
| Schemas.WalkConsistent | lib/schema.js:4-9 | a walk that succeeds leaves a consistent state: `fields` is the key list of `paths`, no path is twice or reserved, every shared path is in `fields` and is stored as the object at its position; and the rewritten tree walks again to the same fields |
| Schemas.Created | lib/schema.js:4-9 | what a successful `new Schema(tree)` leaves: that consistent state, and for distinct declared keys `_id` in the tree as the identifier constructor with `paths._id` `{type: 'ObjectID'}` |
| Schemas.DetachConsistent | lib/schema.js:22 | assigning `tree[name]` and forgetting the positions under `name` keeps a consistent state consistent |
| Schemas.Schema.Install | lib/schema.js:7-8 | storing a walk's table and its key list gives a consistent, current schema and leaves the tree alone |
| Schemas.Schema.Empty | lib/schema.js:11-13 | the prototype defaults are empty and consistent |
| Schemas.Schema.Create | lib/schema.js:4-9 | `new Schema(tree)` adds `_id` and computes `paths` and `fields` from the walk; on error no schema is made; afterwards `fields` is the key list of `paths`, no path is reserved, only table paths are shared with the tree and each is stored as the object at its position, and `_id` is in the tree as the identifier constructor with `paths._id` `{type: 'ObjectID'}` |
| Schemas.Schema.GetFields | lib/schema.js:16-18 | the fields are the keys of `paths` in order |
| Schemas.Schema.GetPaths | lib/schema.js:28-32 | a fresh table from a walk over the tree, which the walk rewrites; `paths` is not assigned, but its entries shared with the tree now read as the tree holds them; `fields` untouched |
| Schemas.Schema.AddField | lib/schema.js:21-25 | the tree gets the name; on success `paths` and `fields` are recomputed and stay consistent, and for a new name the old fields come first and none is lost; on an error `fields` and the keys of `paths` keep their old values while the entries still shared with the tree read as the tree now holds them |
| SchemaExamples.BooleanIsObject | lib/schema.js:87-89 | `Boolean` is not recognised and resolves to `{type: 'Object'}` |
| SchemaExamples.EmptyObjectIsLeaf | lib/schema.js:49-53 | an empty plain object is a leaf `{type: 'Object'}` |
| SchemaExamples.OwnConstructorIsLeaf | lib/schema.js:48 | `{constructor: String}` and `{constructor: 'x', b: Number}` are leaves resolved to `{type: 'Object'}` |
| SchemaExamples.NullConstructorExpands | lib/schema.js:48-49 | `{constructor: null, a: String}` expands, since a falsy own `constructor` passes the test |
| SchemaExamples.ReservedTopLevel | lib/schema.js:63-65 | a top-level `save` is rejected as reserved |
| SchemaExamples.ReservedNestedAccepted | lib/schema.js:63 | `x.save` is accepted, since the check is on the full path |
| SchemaExamples.NullNamesFullPath | lib/schema.js:44-46 | a null under `a.b` is reported as `a.b` |
| SchemaExamples.RecomputeLosesObjectId | lib/schema.js:67-83 | `{type: ObjectId, ref}` resolves to `{type: 'ObjectID', ref}`, which the declaration then holds; a second walk resolves it to `{type: 'Object', ref}` |
| SchemaExamples.SharedEntryFollowsTree | lib/schema.js:28-32 | the table of the first walk holds the declared `five` object, so after a second walk it reads `{type: 'Object', ref}` |
| SchemaExamples.FivePasses | lib/schema.js:67-83 | the descriptor `{type: ObjectId, ref}` resolves to `{type: 'ObjectID', ref}`, and that resolves to `{type: 'Object', ref}` |
| SchemaExamples.OverwriteDropsPaths | lib/schema.js:21-25 | overwriting a branch with a leaf by `addField` drops the old sub-paths |
| SchemaExamples.BareConstructor | lib/schema.js:67-72 | a bare recognised constructor other than `Array` resolves to `{type: name}` and leaves the declaration as it was |
| SchemaExamples.BareArray | lib/schema.js:73-75 | `Array` resolves to `{type: 'Array', elements: 'Object'}` |
| SchemaExamples.ArrayLiteral | lib/schema.js:76-78 | `[String]` resolves to `{type: 'Array', elements: 'String'}` |
| SchemaExamples.TwoExpands | test/lib.schema.test.js:35-40 | `two: {a: {type: Number}, b: Number}` expands into `two.a` and `two.b` |
| SchemaExamples.TwoChildren | test/lib.schema.test.js:53-54 | the children of `two` resolve to `{type: 'Number'}` |
| SchemaExamples.NumberDescriptor | test/lib.schema.test.js:53 | `{type: Number}` resolves to `{type: 'Number'}` |
| SchemaExamples.NestedId | test/lib.schema.test.js:51 | `_id` resolves to `{type: 'ObjectID'}` |
| SchemaExamples.NestedPaths | test/lib.schema.test.js:33-58 | the nested declaration resolves without error to exactly the eight expected paths, in declaration order |
| Models.ProjectGet | lib/model.js:13-17 | an instance holds each field's attribute value and nothing for any other name |
| Models.ProjectKeys | lib/model.js:14 | an instance has exactly the fields whose attribute is not `undefined` as own keys |
| Models.ProjectDistinct | lib/model.js:15 | an instance's own properties form an object |
| Models.Project | lib/model.js:13-17 | an instance has no own key but a schema field |
| Models.Construct | lib/model.js:8-18 | the constructor loop builds the projection; a missing attributes argument acts as `{}`; field names are looked up literally |
| Models.Pick | lib/model.js:41 | `_.pick` keeps only listed keys the object has |
| Models.PickGet | lib/model.js:40-42 | `toJSON` keeps exactly the listed keys the instance has, with their values |
| Models.PickProject | lib/model.js:40-42 | picking fields from an instance equals projecting the attributes onto them |
| Models.ProjectOfProject | lib/model.js:13-17 | building an instance from an instance's own properties reproduces it |
| Models.ProjectEmpty | lib/model.js:9-11 | with no attributes an instance has no own property for a field not named like an `Object.prototype` member (those the model does not look up, see `Models.Construct` under Left out) |
| Models.MapResults | lib/model.js:88-100 | a falsy result gives `undefined`; an array gives an array of the same length whose i-th element is an instance built from the i-th record; any other value gives one instance built from it |
| Models.InstanceProps | lib/model.js:13-17 | every instance holds its fields' attribute values and nothing else |
| Models.Delivered | lib/model.js:76-82 | with a key, only `result[key]` is hydrated and every other property of the result is left as it was; without a key the whole result is hydrated; other arguments pass unchanged |
| Models.Handed | lib/model.js:76-83 | calling the wrapper calls the caller's callback with the delivered arguments; an array result stays an array of the same length |
| Models.WrapCallback | lib/model.js:72-85 | when the last argument is a function it is replaced by a wrapper around it that carries the key; otherwise the arguments are unchanged |
| Models.Apply | lib/model.js:64-69 | the collection method gets a copy of the arguments with the callback wrapped, or the same arguments when there is no callback |
| Models.StaticBinding | lib/model.js:55-61 | exactly `find`, `findOne`, `insert`, `save` and `update` are wrapped without a key, and `findAndModify` with the key `'value'` |
| Models.RemoveVerdict | lib/model.js:34 | the verdict is truthy exactly when the result is truthy and `result.n === 1`; it is a boolean when the result is truthy |
| Models.ModelType.constructor | lib/model.js:38 | the field list is captured from the schema when the Model class is made |
| Models.ModelType.New | lib/model.js:8-18 | `new Model(attributes)` projects onto the schema's fields at the time of the call |
| Models.ModelType.ToJSON | lib/model.js:40-42 | `toJSON` of an instance; without an own `_fields` it holds exactly the captured fields the instance has or inherits, and the instance's own value for each field it has |
| Models.PickAll | lib/model.js:41 | `_.pick`'s keys and values, for every key |
| Models.ToJson | lib/model.js:40-42 | a fresh plain object holding exactly the keys listed by `this._fields` that the instance has or inherits, with the value the lookup chain gives |
| Models.PickedKeys | lib/model.js:38-41 | `this._fields` is the instance's own `_fields` when it has one and otherwise the list captured when the Model class was made |
| Models.InheritedGet | lib/model.js:23-42 | an instance inherits `constructor`, `save`, `remove`, `_fields`, `toJSON` and the `Object.prototype` members, `_fields` being the captured list |
| Models.ToJsonKeys | lib/model.js:38-41 | every key `toJSON` outputs is a captured field, unless an own `_fields` lists it |
| Models.PickNearest | lib/model.js:41 | picking keys no inherited object has reads only the own properties |
| Models.OwnFieldsShadowCapture | lib/model.js:38-41 | with a schema field `_fields`, `new Model({_fields: ['save']}).toJSON()` is `{save: <method>}` |
| Models.InheritedFieldBreaksRoundTrip | lib/model.js:9-17 | with a field named `_fields` and no attributes, the instance has no own property, `toJSON()` picks the inherited captured list, and the instance rebuilt from it owns that list, so it differs from the original |
| Models.ToJsonRoundTrip | test/lib.model.test.js:141 | building an instance from another's `toJSON()` with the same field list gives the same instance, when no field names an inherited property |
| Models.LateFieldOmitted | lib/model.js:38 | a field added to the schema after the Model class was made is set by the constructor but left out of `toJSON`, unless the instance's own `_fields` lists it |
| Models.ToJsonExcludesMethods | test/lib.model.test.js:131-138 | `toJSON` holds a Model method such as `save` only when the instance's own `_fields` lists it, since no schema field has a reserved name |
| Utils.Extend | lib/utils.js:8-23 | the child's own properties become the copy over the parent's `for ... in` keys; the parent is not modified, a null parent changes nothing, and the child is returned |
| Utils.ForInKeys | lib/utils.js:9 | `for ... in` visits exactly the own and inherited keys |
| Utils.Unshadowed | lib/utils.js:9 | an inherited key is visited unless an own key shadows it |
| Utils.Copied | lib/utils.js:9-13 | the copy loop never removes or reorders a key of the child |
| Utils.CopiedGet | lib/utils.js:9-13 | after the copy, each visited key the parent owns has the parent's value and every other key keeps the child's value |
| Utils.CopiedKeys | lib/utils.js:11 | the child keeps its keys in order and gains only the parent's own keys |
| Utils.CopiedSelf | lib/utils.js:9-13 | extending an object from itself leaves it unchanged |
| Utils.ExtendGet | lib/utils.js:9-13 | every own key of the parent maps in the child to the parent's value, other keys of the child keep their values, and keys the parent only inherits are not copied |
| Utils.ExtendFromInstance | test/lib.utils.test.js:11-17 | extending from an instance `{foo: 'bar'}` gives the child `foo` with the value `'bar'` |
| Utils.JsObject.constructor | lib/utils.js:8 | an object with the given own and inherited properties |
| Js.Get | lib/schema.js:44 | reading a key an object lacks gives `undefined` |
| Js.Put | lib/schema.js:83 | assignment sets the key and leaves every other key's value alone |
| Js.PutKeys | lib/schema.js:83 | assignment keeps the key order and appends a new key |
| Js.PutDistinct | lib/schema.js:83 | assignment never gives an object a key twice |
| Js.PutOther | lib/schema.js:83 | assignment leaves every entry under another key at its index |
| Js.PutAppend | lib/schema.js:22 | assigning a key an object lacks appends it |
| Js.KeysAppend | lib/schema.js:17 | the key list of a concatenation is the concatenation of key lists |

## Left out

- Document-store driver calls (`db.collection`, `Collection.save`, `remove`, `find` and the rest) are network I/O. Store results are inputs to `Models.MapResults`, `Models.Delivered` and `Models.RemoveVerdict`.
- The EventEmitter binding and the `emit` calls in `save` and `remove` belong to a foreign library.
- Copying the collection's and the emitter's functions onto the Model class with `_.functions` is object-model plumbing. `Models.StaticBinding` states only which names end up wrapped.
- `save` on an instance only forwards to the driver and emits an event, so it is not modelled.
- The prototype wiring in `extend` (lib/utils.js:14-21) is object-model plumbing. `Utils.Extend` models the copy loop and the return value.
- Utils.Extend: an object's own and inherited properties are two separate lists, so a child that sits on the parent's prototype chain is not linked to it. In the source the copy onto such a child would also change what the parent inherits; the model promises `parent.inherited` unchanged.
- The undeclared global `callback` at lib/model.js:75 is shared between overlapping calls. Each wrapper is modelled as holding its own callback.
- Models.Delivered: requires that a truthy key comes with an object result. The source throws a TypeError on a null result and writes a property onto an array or function result.
- Models.Apply: the collection method the copy is handed to is not modelled.
- Models.ModelType.New: `new` and `this` binding are not modelled. An instance value is its own properties; what it inherits is modelled only where `toJSON` reads it (`Models.Chain`).
- Models.Construct: `attributes[attr]` reads own properties only. A field named like an inherited property (`toString`) would take the inherited value from a plain attributes object; that is not modelled, and neither are inherited properties of an attributes object that is itself a Model instance.
- Models.FieldList: underscore flattens nested arrays in the key list and turns non-string keys into strings. The model reads an own `_fields` that is neither a string nor an array, and any non-string item, as listing no key.
- Models.ToJsonRoundTrip: proved only when no field names an inherited property. In the source the round trip fails for a field named like a `Model.prototype` member (`save`, `remove`, `_fields`, `toJSON`) that the attributes lack: `toJSON` picks the inherited value and the rebuilt instance owns it (`Models.InheritedFieldBreaksRoundTrip`). For a field named like an `Object.prototype` member (`toString`) the source's round trip holds, because `{}` already supplies that member as the attribute value; the model's own-only lookup (`Models.Construct`) does not, so those fields are excluded as well.
- Models.InheritedValue: inherited methods are told apart by name only. Their bodies are not modelled.
- Models.RemoveVerdict: the source promises a boolean, but for a falsy result the code passes that result through. The contract states what the code does.
- Property lookup (`Js.Prop`) on anything but an object reads no property. This covers a number or string attributes value, an array passed as attributes (`new Model([...])` would read its indices and `length`, as for an array item handed to `_mapResults`), and a declared function carrying its own `type` (lib/schema.js:67). Properties of built-in prototypes are not modelled.
- `Object.keys` lists integer-like keys first in ascending order. The model keeps insertion order for every key.
- Numbers are integers. Floating point and NaN are not modelled.
- Schemas.Schema.Create: its precondition excludes a truthy declaration that is not a plain object. An array (`new Schema([String])`) or a function receives `_id` and has its keys walked. A number or string cannot hold a property, so outside strict mode the `_id` assignment of lib/schema.js:6 is dropped: a string's character indices are walked and no `_id` path appears, and a number has no keys (an ES5 engine's `Object.keys` throws on it instead).
- Schemas.Schema.Create: the caller's declaration object is the very object the schema keeps, so the caller sees the `_id` and the rewritten descriptors. The model returns the rewritten tree but does not model the caller's reference to it.
- Overwriting an existing key with `addField` replaces its paths rather than adding to them (`SchemaExamples.OverwriteDropsPaths`). `Schemas.Schema.AddField` promises that no field is lost only for a new name.
- Schemas.CalculatePaths: one descriptor object declared under two keys is rewritten twice in the source, the second time from its already-rewritten `type` (`{a: d, b: d}` with `d = {type: String}` stores `{type: 'Object'}` under both paths). The model treats each occurrence as its own object. The same holds for `SchemaPaths.Flatten` and `SchemaPaths.Shared`.
- Schemas.Schema.GetPaths: a table it returns to an outside caller also shares descriptor objects with the tree. Later walks rewrite those too; the model tracks this only for `paths`.
- index.js (connection wiring) is not part of this model.
- Behaviour that only the tests assert has no code here and is not modelled: pre-save hooks, memoization of models by name, `augment`, `waterfall`, `flatten`, validation and default filling.
