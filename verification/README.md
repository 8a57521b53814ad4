# waterline-params, modelled in Dafny

waterline-params adds mass-assignment protection to Waterline models. Each
model is configured with a whitelist of permitted attribute names. Untrusted
input, such as a request body, is projected onto that whitelist. A trusted
server-side override is then laid over the result. The override is never
filtered and always wins. Every write operation goes through this
filter-then-override step (`params`). That covers record-level `assign` and
`safeUpdate`, and collection-level `safeCreate`. Record-level and
collection-level `only` and `except` are read-only projections.

The model is functional. JavaScript values are a tagged union (`JsValues.Value`):
`Plain`, `Fn`, `Arr` and scalars. The library's four type questions (`_.isPlainObject`, `_.isFunction`,
`_.isArray`, and `_.isString` on the whitelist option) become constructor tests.
The last one is answered by the `KeyString` tag of `Config.Permitted`.
Objects are `map<string, Value>`. A record is its plain attribute view.
The persistence calls `save` and `create` become values (`SaveCall`,
`CreateCall`) that record the arguments they were given.

Modules follow the source:

- `JsValues`: values and the type classifiers.
- `Objects`: `_.pick`, `_.omit` and `_.assign` over maps, plus the pick loop.
- `Strings`: `split(' ')` and its inverse `join`.
- `Config`: option normalisation.
- `Filter`: `params`.
- `Instance`: the record methods.
- `Statics`: the collection methods.
- `Scenarios`: worked cases.

Points where the code's behaviour is easy to misread:

- A whitelist string is split on the space character only. Tabs and other
  whitespace are not separators. A string without a space stays a single key
  name. A doubled space produces an empty key name.
- Only a function in the override slot becomes the callback. An array, or
  `undefined`, in that slot is neither merged nor used as the callback; `done`
  is the callback.
- A `permitted` option that is neither a list nor a string is not reset to
  the empty whitelist.
- Record-level `only()` and `except()` called with no argument look up the key
  `"undefined"`. The argument is `undefined`, and its string form is used as
  the key. The collection-level forms with no key select nothing.

## Model

| member | source | states |
|---|---|---|
| JsValues.Properties | index.js:33 | a plain object offers its own fields as source properties; any other value offers none |
| Objects.Pick | index.js:33 | the object's properties whose names are in the key set, each with the object's value, and no other |
| Objects.Omit | index.js:49 | the object's properties whose names are not in the key set, each with the object's value, and no other |
| Objects.AssignProps | index.js:34 | the keys of both objects; every key of the second carries its value, every other key keeps the first's value |
| Objects.PickByArray | index.js:33 | the loop inside lodash's `_.pick` over the requested names builds exactly the set-level `Pick` that `params` uses: the requested names the object has, each with the object's value |
| Objects.PickOmitPartition | index.js:45-49 | picking and omitting the same names give disjoint key sets whose union is the object, and together they rebuild the object |
| Strings.Split | index.js:18 | splitting on a separator gives at least one piece, no piece contains the separator, there is one piece more than separators, and joining the pieces gives back the string |
| Strings.SplitJoin | index.js:18 | splitting the join of separator-free pieces gives back exactly those pieces |
| Config.Normalize | index.js:13-18 | missing options give the empty list; a list is kept; a string with a space becomes the list of its space-free pieces, which join back to it; a string without a space is kept |
| Config.PermittedKeys | index.js:33 | a key list permits exactly its names; a whitelist string permits itself as one key name |
| Config.StringWhitelistKeys | index.js:17-18 | for every whitelist string, split or not, the permitted keys are the pieces of splitting it on spaces, and none of them contains a space |
| Config.NormalizeIdempotent | index.js:13-18 | normalising an already normalised whitelist changes nothing |
| Filter.Params | index.js:32-36 | with no plain override, the keys are exactly source keys that are whitelisted; with one, whitelisted source keys plus every override key; override values always win; any other key carries the source's value |
| Filter.NoOverrideIsProjection | index.js:33-35 | a function, array or other non-plain override gives the pure whitelist projection, the same as no override |
| Filter.OnlyWhitelistedKeysMatter | index.js:33 | two sources that agree on whitelisted keys filter to the same object, so untrusted extra keys have no effect |
| Filter.ParamsIdempotent | index.js:32-36 | filtering a filtered object again with the same whitelist and override gives it back |
| Filter.DefaultWhitelistKeepsOnlyOverride | index.js:13-35 | with default options nothing from the source survives; the result is the override or the empty object |
| Instance.InstanceKeys | index.js:44-48 | a list argument is the key list; one or more positional names are the key list; no argument names the key "undefined" |
| Instance.Only | index.js:43-46 | the result holds exactly the record attributes named by the resolved keys, with their values |
| Instance.Except | index.js:47-50 | the result holds exactly the record attributes not named by the resolved keys, with their values |
| Instance.OnlyExceptPartition | index.js:43-50 | `only` and `except` with the same keys are disjoint, cover every attribute, and together rebuild the record's attributes |
| Instance.VariadicEqualsList | index.js:43-50 | `only('a','b',...)` equals `only(['a','b',...])`, and likewise for `except`, for one or more keys |
| Instance.NoArgumentSelectsUndefinedKey | index.js:43-50 | `only()` returns the attribute named "undefined" if present, `except()` drops only it, and an empty list selects nothing |
| Instance.AssignRecord | index.js:60-63 | every key of the filtered object is set on the record with the filtered value; all other attributes keep their values; no attribute is removed |
| Instance.AssignTouchesOnlyPermittedOrOverride | index.js:60-62 | an attribute that `assign` adds or changes is whitelisted or set by the override |
| Instance.ResolveCallback | index.js:88 | the callback is the override slot or `done`; a function in the slot is the callback; any other value in the slot leaves `done` |
| Instance.SafeUpdate | index.js:87-89 | the saved record holds every filtered key with its filtered value, so a plain override's values win; every other attribute keeps its value; a function override is the callback and is not merged; otherwise `done` is the callback |
| Instance.OverrideSlotHasOneRole | index.js:87-89 | a plain override is never taken as the callback, and a function override leaves the record as if no override were given |
| Statics.StaticKeys | index.js:97-98 | the key arguments after the object are the key list, names or one list alike; with no key argument nothing is named |
| Statics.StaticOnly | index.js:97 | the result holds exactly the object's properties named by the key arguments, with their values |
| Statics.StaticExcept | index.js:98 | the result holds exactly the object's properties not named by the key arguments, with their values |
| Statics.StaticAgreesWithInstance | index.js:43-98 | with at least one key (or a list), the collection-level projections equal the record-level ones on the record's attributes |
| Statics.DocList | index.js:110 | an array of docs is taken as it is; any other value becomes a one-element list holding it |
| Statics.FilterEach | index.js:111-113 | the filtered list has the docs' length, and element i is `params(docs[i], override)` with the same override for every element |
| Statics.SafeCreate | index.js:109-116 | `create` receives one filtered object per doc, in order, each filtered with the same override; the callback is a function override, otherwise `done` |
| Statics.SingleDocIsWrapped | index.js:110 | a doc that is not an array is created exactly as the one-element list holding it |
| Statics.CreatedRecordsAreFiltered | index.js:109-115 | every created object holds only whitelisted or override keys, and holds every override key with the override's value |
| Scenarios.SpaceSeparatedWhitelist | index.js:17-18 | the whitelist string "name email" becomes the list ["name", "email"] |
| Scenarios.DoubledSpaceGivesEmptyKey | index.js:17-18 | the whitelist string "a  b" becomes ["a", "", "b"] |
| Scenarios.BatchCreate | index.js:109-116 | `safeCreate([{a:1,b:2},{a:3,b:4}], {c:9})` with whitelist ['a'] creates [{a:1,c:9},{a:3,c:9}] |
| Scenarios.FilterOne | index.js:32-36 | whitelist ['a'] over {a:x, b:...} with override {c:9} gives {a:x, c:9} |
| Scenarios.UpdateWithCallbackInOverrideSlot | index.js:87-89 | `safeUpdate({a:1,b:2}, fn)` with whitelist ['a'] sets `a`, keeps `b`, and saves with `fn` |

## Left out

- `merge` (index.js:73-76): lodash's recursive deep merge is not modelled. Its filtering step is the same `params` call that `assign` makes.
- `save` and `create` (index.js:88, index.js:115): persistence, promises and callback invocation belong to Waterline. They are modelled as `SaveCall` and `CreateCall` values holding the record or objects and the chosen callback. An `Undefined` callback stands for the promise form.
- Mixin wiring (index.js:42, index.js:96): attaching the methods to the model prototype is JavaScript plumbing. The model has records as values. `assign` returns the updated record, so object identity (returning `this`) is not modelled.
- Filter.Params: a source that is not a plain object (an array, a string, a function) offers no properties in the model. lodash would read its indices, characters or function properties.
- Filter.Params: properties inherited through the prototype chain are not modelled. lodash's `key in object` test would also see them.
- Instance.Only: the same prototype-chain lookup is not modelled. `record.only('toString')` returns the inherited function in the source and `{}` in the model.
- Statics.StaticOnly: the same prototype-chain lookup is not modelled, for the same reason as `Instance.Only`.
- Config.Normalize: a `permitted` option that is neither a list nor a string (a number, `null`) is not modelled. The code passes it to `_.pick` unchanged.
- Key names are plain property names. lodash's deep property paths (`'a.b'`) are not modelled.
- Instance.Only: a key list nested inside a variadic call (`only(['a'], 'b')`) is not modelled. The argument type excludes it. A function passed as the key argument (lodash's predicate form of pick/omit) is not modelled either.
- Instance.Except: a key list nested inside a variadic call is not modelled, for the same reason as `Instance.Only`.
- Statics.StaticOnly: a call mixing a key list with further names (`only(obj, ['a'], 'b')`), which lodash flattens to `['a', 'b']`, is not modelled. The argument type admits either names or one list. A function as the key argument (lodash's predicate form of pick) is not modelled either.
- Statics.StaticExcept: the mixed call form and a function as the key argument (lodash's predicate form of omit) are not modelled, for the same reasons as `Statics.StaticOnly`.
- The order of keys in result objects is not modelled. Maps are unordered.
- Numbers are integers. Floating-point values play no role in the filter.
