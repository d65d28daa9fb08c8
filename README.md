# Sencha.io naming-object cache and proxy, in Dafny

This project models the client-side core of the Sencha.io SDK (version 0.7.13) that deals with naming-service objects.

- **`Ext.cf.naming.LocalStore`** wraps the browser's `window.localStorage`. It decodes the sentinel strings `"null"` and `"undefined"`, does nothing (or misses) when the browser offers no store, and lists or removes keys by prefix. The model is class `LocalStore.LocalStore`. Its state is `LocalStore.Storage`: an `available` flag, the stored keys in storage index order, and a `map<string, string>` of their values.
- **`Ext.cf.naming.ConfigStore`** is a two-tier cache of object configs. A memory map (`memCache`) sits in front of the local store.
  - Keys are `"sencha-io-config-"` followed by the key array joined with `"-"`.
  - Reads try memory first, fall back to the store (JSON-parsing a truthy string), and backfill memory.
  - Writes go to both tiers; `remove` and `nukeCache` clear both.
  - The model is class `ConfigStore.ConfigStore`. Its state is `ConfigStore.Cache`, and each operation is specified by a function of that state (`Lookup`/`AfterLookup`, `Stored`, `Removed`, `Nuked`).
- **`Ext.io.Object`** is the proxy of a naming-service object. It covers the cache-first fetch, the config-to-instance mapping, the list-returning queries, the related-object navigation, the watch flag, and the local-first `update`/`_update`. The model is class `IoObject.IoObject`.
  - Each RPC is represented by the outcome the service answers with (`Success(value)` or `Failure(error)`).
  - The requests sent come back as a list of `RpcCall`s.
  - The `updated` events fired are appended to the object's `events` log.
- **`Ext.io.Errors`** is the static table of error records. It is modelled as an enumeration of the registered names, field functions, and a lookup by code.

Two supporting modules model the JavaScript the core relies on:

- `Js` covers values, truthiness, property access and its `TypeError` on null or undefined, `Array.prototype.join`, and `Ext.Object.merge`.
- `Json` is a concrete `JSON.stringify`/`JSON.parse` pair, with the round trip `Parse(Stringify(v)) == Ok(v)` proved for every value JSON can carry.

Thrown exceptions are results (`Raised(TypeError)`, `Raised(SyntaxError)`, `Threw(...)`), never preconditions.

Two behaviours of the code deserve a note:

- **Merge depth.** `_update` calls `Ext.Object.merge` (Object.js:280), which merges a plain object into the plain object already under the same key instead of replacing it (`Js.NestedMerge`). `Js.MergeData` follows that order and recursion, but only its top-level effect is claimed.
- **Falsy backfill.** `getObjectConfig` backfills memory with whatever falsy value the store gave (null, undefined or `""`). `ConfigStore.LookupUnobservable` shows that such a backfill never changes what a later read answers.

## Model

| member | source | states |
|---|---|---|
| Js.Get | application/libraries/sencha-io/sencha-io-0.7.13/src/io/Object.js:123 | reading a property an object lacks gives undefined |
| Js.Put | application/libraries/sencha-io/sencha-io-0.7.13/src/io/Object.js:287 | after `o[k] = v`, `o[k]` is `v`, every other key reads as before, and only a new key grows the object |
| Js.PutFresh | application/libraries/sencha-io/sencha-io-0.7.13/src/io/Object.js:287 | a key not yet present is added last, so insertion order is kept; integer-like keys, which JavaScript lists first, are not distinguished (see "## Left out") |
| Js.Property | application/libraries/sencha-io/sencha-io-0.7.13/src/io/Object.js:123 | reading a property raises TypeError exactly when the value is null or undefined; on an object it is the member lookup |
| Js.SetProperty | application/libraries/sencha-io/sencha-io-0.7.13/src/io/Object.js:287 | `objConf.data = merged` raises TypeError exactly when `objConf` is null or undefined; on an object it makes `data` read as `merged` and leaves every other member alone; any other value, an array included, is unchanged |
| Js.ElementTexts | libraries/sencha-io/sencha-io-0.7.13/src/cf/naming/ConfigStore.js:32-33 | `join` renders element `i` of the key array as that element's join text, one text per element |
| Js.MergeData | application/libraries/sencha-io/sencha-io-0.7.13/src/io/Object.js:280 | `Ext.Object.merge` raises exactly when non-empty data is merged into null or undefined; merging into an object gives an object with the top-level merge properties; any other value, an array included, is kept |
| Js.MergeMembersProperties | application/libraries/sencha-io/sencha-io-0.7.13/src/io/Object.js:280 | the merged keys are those of both sides, keys outside the data keep their value, keys whose new value is not a plain object take it, and distinct keys stay distinct |
| Js.NestedMerge | application/libraries/sencha-io/sencha-io-0.7.13/src/io/Object.js:280 | merging `{b: {y: 2}}` into `{a: 1, b: {x: 1}}` gives `{a: 1, b: {x: 1, y: 2}}`: nested plain objects are merged, not replaced |
| Json.Stringify | libraries/sencha-io/sencha-io-0.7.13/src/cf/naming/ConfigStore.js:66 | `JSON.stringify` gives no text exactly for undefined, and otherwise a non-empty text starting like a JSON value |
| Json.PrintNotEmpty | libraries/sencha-io/sencha-io-0.7.13/src/cf/naming/ConfigStore.js:66 | every printed value is non-empty and starts with `n`, `t`, `f`, `-`, a digit, `"`, `[` or `{` |
| Json.Parse | libraries/sencha-io/sencha-io-0.7.13/src/cf/naming/ConfigStore.js:50 | `JSON.parse` fails only with a SyntaxError |
| Json.EscapeRoundTrip | libraries/sencha-io/sencha-io-0.7.13/src/cf/naming/ConfigStore.js:66 | the escaped text of any string, closed by a quote, parses back to that string and leaves the rest |
| Json.NumberRoundTrip | libraries/sencha-io/sencha-io-0.7.13/src/cf/naming/ConfigStore.js:66 | the text of any integer parses back to it when followed by a delimiter |
| Json.PrintRoundTrip | libraries/sencha-io/sencha-io-0.7.13/src/cf/naming/ConfigStore.js:66 | the text of every JSON-representable value parses back to the value, whatever delimited text follows |
| Json.RoundTrip | libraries/sencha-io/sencha-io-0.7.13/src/cf/naming/ConfigStore.js:44-68 | what setObjectConfig stringifies, getObjectConfig parses back to the same value |
| LocalStore.Without | application/libraries/sencha-io/sencha-io-0.7.13/src/cf/naming/LocalStore.js:49 | removing a key leaves exactly the other keys |
| LocalStore.PrefixedKeys | application/libraries/sencha-io/sencha-io-0.7.13/src/cf/naming/LocalStore.js:53-62 | the listed keys are exactly the stored keys that start with the prefix |
| LocalStore.UnprefixedKeys | application/libraries/sencha-io/sencha-io-0.7.13/src/cf/naming/LocalStore.js:64-71 | the keys left are exactly the stored keys that do not start with the prefix |
| LocalStore.GetAfterSet | application/libraries/sencha-io/sencha-io-0.7.13/src/cf/naming/LocalStore.js:12-38 | getItem after setItem gives the decoded value; any string other than the two sentinels comes back unchanged |
| LocalStore.SetLeavesOthers | application/libraries/sencha-io/sencha-io-0.7.13/src/cf/naming/LocalStore.js:33-38 | setItem changes what getItem answers for its own key only |
| LocalStore.RemoveMakesAbsent | application/libraries/sencha-io/sencha-io-0.7.13/src/cf/naming/LocalStore.js:46-51 | after removeItem the key is neither stored nor listed, getItem answers null for it, and every other key reads as before |
| LocalStore.Unavailable | application/libraries/sencha-io/sencha-io-0.7.13/src/cf/naming/LocalStore.js:12-51 | without a backing store getItem answers undefined and setItem and removeItem change nothing |
| LocalStore.SetWellFormed | application/libraries/sencha-io/sencha-io-0.7.13/src/cf/naming/LocalStore.js:33-38 | setItem keeps the keys distinct and in step with the stored values |
| LocalStore.RemoveWellFormed | application/libraries/sencha-io/sencha-io-0.7.13/src/cf/naming/LocalStore.js:46-51 | removeItem keeps the keys distinct and in step with the stored values |
| LocalStore.WithoutKeysWellFormed | application/libraries/sencha-io/sencha-io-0.7.13/src/cf/naming/LocalStore.js:67-69 | removing keys one by one keeps the store well formed |
| LocalStore.PrefixedDistinct | application/libraries/sencha-io/sencha-io-0.7.13/src/cf/naming/LocalStore.js:53-62 | listKeys names each key once |
| LocalStore.WithoutKeysEffect | application/libraries/sencha-io/sencha-io-0.7.13/src/cf/naming/LocalStore.js:67-69 | removing a list of keys one by one removes exactly those keys and keeps the order of the rest |
| LocalStore.RemovePrefixedEffect | application/libraries/sencha-io/sencha-io-0.7.13/src/cf/naming/LocalStore.js:64-71 | after removing the listed keys no key with the prefix is stored or listed, the other keys keep their order and their values, and the store stays well formed |
| LocalStore.LocalStore.constructor | application/libraries/sencha-io/sencha-io-0.7.13/src/cf/naming/LocalStore.js:5-14 | the wrapper sees whatever the browser's store already holds |
| LocalStore.LocalStore.GetItem | application/libraries/sencha-io/sencha-io-0.7.13/src/cf/naming/LocalStore.js:12-24 | answers undefined without a store and null for a missing key; decodes `"null"` to null and `"undefined"` to undefined; returns any other stored string as it is |
| LocalStore.LocalStore.SetItem | application/libraries/sencha-io/sencha-io-0.7.13/src/cf/naming/LocalStore.js:33-38 | the new state is the old one with the value stored (a new key last), or unchanged without a store |
| LocalStore.LocalStore.RemoveItem | application/libraries/sencha-io/sencha-io-0.7.13/src/cf/naming/LocalStore.js:46-51 | the new state is the old one without the key, or unchanged without a store |
| LocalStore.LocalStore.ListKeys | application/libraries/sencha-io/sencha-io-0.7.13/src/cf/naming/LocalStore.js:53-62 | the index loop returns the keys starting with the prefix, in storage index order |
| LocalStore.LocalStore.RemoveAllKeyPrefixes | application/libraries/sencha-io/sencha-io-0.7.13/src/cf/naming/LocalStore.js:64-71 | returns listKeys as computed before removal, and the new state is the old one with exactly those keys removed |
| ConfigStore.StoreKey | libraries/sencha-io/sencha-io-0.7.13/src/cf/naming/ConfigStore.js:31-36 | getStoreKey raises a TypeError exactly for a null or undefined key and for an object whose `join` member is truthy (`if(key.join)` then calls it); an array is joined with `"-"`, anything else goes through String() |
| ConfigStore.StoreKeyPrefix | libraries/sencha-io/sencha-io-0.7.13/src/cf/naming/ConfigStore.js:31-36 | every store key starts with `sencha-io-config-` |
| ConfigStore.StoreKeyJoinMember | libraries/sencha-io/sencha-io-0.7.13/src/cf/naming/ConfigStore.js:32-33 | `{join: 1}` raises a TypeError, while `{join: 0}` fails the `if(key.join)` test and becomes `sencha-io-config-[object Object]` |
| ConfigStore.StoreKeyCollision | libraries/sencha-io/sencha-io-0.7.13/src/cf/naming/ConfigStore.js:32-33 | `["User", "abc-def"]` and `["User-abc", "def"]` are different keys with the same store key |
| ConfigStore.StoreKeyInjective | libraries/sencha-io/sencha-io-0.7.13/src/cf/naming/ConfigStore.js:32-35 | non-empty arrays of dash-free strings with the same store key are equal |
| ConfigStore.JoinInjective | libraries/sencha-io/sencha-io-0.7.13/src/cf/naming/ConfigStore.js:33 | joining non-empty lists of dash-free parts with `"-"` is injective |
| ConfigStore.Load | libraries/sencha-io/sencha-io-0.7.13/src/cf/naming/ConfigStore.js:48-51 | a falsy item (null, undefined, `""`) is kept as it is; only JSON.parse can fail, with a SyntaxError |
| ConfigStore.SetThenGet | libraries/sencha-io/sencha-io-0.7.13/src/cf/naming/ConfigStore.js:46-47 | after setObjectConfig with a truthy config, getObjectConfig answers it from memory whatever the store holds, and changes nothing |
| ConfigStore.LookupIdempotent | libraries/sencha-io/sencha-io-0.7.13/src/cf/naming/ConfigStore.js:44-55 | reading twice answers the same as reading once and has the same effect |
| ConfigStore.LookupUnobservable | libraries/sencha-io/sencha-io-0.7.13/src/cf/naming/ConfigStore.js:47-53 | a read, including its backfill of a falsy value, changes no later read of any key |
| ConfigStore.LookupFrame | libraries/sencha-io/sencha-io-0.7.13/src/cf/naming/ConfigStore.js:44-55 | a read never writes the store and changes memory only at its own key |
| ConfigStore.StoredTextSentinels | libraries/sencha-io/sencha-io-0.7.13/src/cf/naming/ConfigStore.js:66-67 | JSON text is never the `"undefined"` sentinel and is `"null"` only for null |
| ConfigStore.Persisted | libraries/sencha-io/sencha-io-0.7.13/src/cf/naming/ConfigStore.js:63-68 | what setObjectConfig writes to the store reads back, through getItem and the JSON fallback, as the config itself (undefined included) |
| ConfigStore.SetThenReload | libraries/sencha-io/sencha-io-0.7.13/src/cf/naming/ConfigStore.js:44-68 | a later session, starting with empty memory over the same store, reads back what was set |
| ConfigStore.RemoveThenGet | libraries/sencha-io/sencha-io-0.7.13/src/cf/naming/ConfigStore.js:70-74 | after remove the key is gone from memory and reads as a miss (null, or undefined without a store); other keys keep their memory entries and stored values |
| ConfigStore.NukeThenGet | libraries/sencha-io/sencha-io-0.7.13/src/cf/naming/ConfigStore.js:79-82 | after nukeCache memory is empty, no key with the prefix is left, and every prefixed key reads as a miss |
| ConfigStore.NukeLeavesOthers | libraries/sencha-io/sencha-io-0.7.13/src/cf/naming/ConfigStore.js:79-82 | nukeCache keeps every key without the prefix, its value and its order |
| ConfigStore.CoherentTransparent | libraries/sencha-io/sencha-io-0.7.13/src/cf/naming/ConfigStore.js:44-55 | when memory agrees with the store, a read answers what the store alone would give |
| ConfigStore.CoherentLookup | libraries/sencha-io/sencha-io-0.7.13/src/cf/naming/ConfigStore.js:44-55 | getObjectConfig keeps memory in agreement with the store |
| ConfigStore.CoherentStored | libraries/sencha-io/sencha-io-0.7.13/src/cf/naming/ConfigStore.js:63-68 | setObjectConfig of a config JSON can carry keeps memory in agreement with the store |
| ConfigStore.CoherentRemoved | libraries/sencha-io/sencha-io-0.7.13/src/cf/naming/ConfigStore.js:70-74 | remove keeps memory in agreement with the store |
| ConfigStore.CoherentNuked | libraries/sencha-io/sencha-io-0.7.13/src/cf/naming/ConfigStore.js:79-82 | nukeCache leaves memory trivially in agreement with the store |
| ConfigStore.UnstorableIncoherent | libraries/sencha-io/sencha-io-0.7.13/src/cf/naming/ConfigStore.js:65-66 | a config with an undefined member makes memory and store disagree, because JSON drops the member |
| ConfigStore.ConfigStore.constructor | libraries/sencha-io/sencha-io-0.7.13/src/cf/naming/ConfigStore.js:24-28 | starts with empty memory over a new local-store wrapper |
| ConfigStore.ConfigStore.GetObjectConfig | libraries/sencha-io/sencha-io-0.7.13/src/cf/naming/ConfigStore.js:44-55 | raises for a nullish key; otherwise answers `Lookup` and moves to `AfterLookup`, never writing the store |
| ConfigStore.ConfigStore.SetObjectConfig | libraries/sencha-io/sencha-io-0.7.13/src/cf/naming/ConfigStore.js:63-68 | raises for a nullish key; otherwise memory holds the config and the store holds its JSON text (`"undefined"` for undefined) |
| ConfigStore.ConfigStore.Remove | libraries/sencha-io/sencha-io-0.7.13/src/cf/naming/ConfigStore.js:70-74 | raises for a nullish key; otherwise the key is dropped from both tiers |
| ConfigStore.ConfigStore.NukeCache | libraries/sencha-io/sencha-io-0.7.13/src/cf/naming/ConfigStore.js:79-82 | memory is emptied and every store key with the prefix is removed |
| IoObject.InitOf | application/libraries/sencha-io/sencha-io-0.7.13/src/io/Object.js:122-124 | createObject raises a TypeError exactly for a nullish config; otherwise id, data and allowedActions are the config's `_key`, `data` and `allowedActions` (undefined for a primitive) |
| IoObject.InitsOf | application/libraries/sencha-io/sencha-io-0.7.13/src/io/Object.js:162-166 | mapping a list of configs succeeds exactly when none is nullish, with one entry per config, in order, entry `i` being config `i`'s |
| IoObject.CacheKey | application/libraries/sencha-io/sencha-io-0.7.13/src/io/Object.js:97 | the cache key of `[className, key]` starts with the config prefix |
| IoObject.CacheKeyText | application/libraries/sencha-io/sencha-io-0.7.13/src/io/Object.js:97 | the cache key is the prefix, the class name, `"-"` and the key's join text |
| IoObject.FetchThenHit | application/libraries/sencha-io/sencha-io-0.7.13/src/io/Object.js:102-108 | once a fetched truthy config is cached, the next getCachedObject reads it from the cache |
| IoObject.LocalUpdateObject | application/libraries/sencha-io/sencha-io-0.7.13/src/io/Object.js:279-291 | _update changes only data and the event log; a failed merge changes nothing; data becomes the merge; a completed update fires exactly one `updated(data, isRemote)` and a raising one fires none |
| IoObject.LocalUpdateMerge | application/libraries/sencha-io/sencha-io-0.7.13/src/io/Object.js:280-281 | keys not in the update keep their value; keys with a non-object value take it |
| IoObject.LocalUpdateCache | application/libraries/sencha-io/sencha-io-0.7.13/src/io/Object.js:283-289 | without a cached config no read changes; with a cached object its `data` becomes the merged data; other keys never change |
| IoObject.IoObject.constructor | application/libraries/sencha-io/sencha-io-0.7.13/src/io/Object.js:194-199 | a new proxy carries the given id, data and allowed actions, unwatched and with no events |
| IoObject.IoObject.CreateObject | application/libraries/sencha-io/sencha-io-0.7.13/src/io/Object.js:122-124 | a new proxy of the class, made from InitOf(config); a nullish config raises |
| IoObject.IoObject.CreateAll | application/libraries/sencha-io/sencha-io-0.7.13/src/io/Object.js:162-165 | the push loop yields one new, distinct proxy per config, in order, or raises where InitsOf does |
| IoObject.IoObject.GetObject | application/libraries/sencha-io/sencha-io-0.7.13/src/io/Object.js:66-87 | sends one `get`; on success a proxy for the returned config, on failure the service's error |
| IoObject.IoObject.GetCachedObject | application/libraries/sencha-io/sencha-io-0.7.13/src/io/Object.js:95-110 | a truthy cached config gives a proxy with no request sent; otherwise one `get` is sent, and the config is cached only when a proxy was made; on failure the cache changes only by the falsy backfill |
| IoObject.IoObject.CacheObjectConfig | application/libraries/sencha-io/sencha-io-0.7.13/src/io/Object.js:112-116 | stores the config under `[className, key]` in both tiers |
| IoObject.IoObject.RemoveCachedObject | application/libraries/sencha-io/sencha-io-0.7.13/src/io/Object.js:130-134 | drops `[className, key]` from both tiers |
| IoObject.IoObject.FindObjects | application/libraries/sencha-io/sencha-io-0.7.13/src/io/Object.js:152-178 | sends one `find`; on success one new proxy per returned config, same length and order (empty for an empty result); on failure the error |
| IoObject.IoObject.ListReply | application/libraries/sencha-io/sencha-io-0.7.13/src/io/Object.js:161-169 | a listing answer becomes the mapped proxies or the service's error |
| IoObject.IoObject.Watch | application/libraries/sencha-io/sencha-io-0.7.13/src/io/Object.js:216-221 | sets the registration flag, changes nothing else, and answers the object itself |
| IoObject.IoObject.Ignore | application/libraries/sencha-io/sencha-io-0.7.13/src/io/Object.js:226-231 | clears the registration flag, changes nothing else, and answers the object itself |
| IoObject.IoObject.UpdateLocal | application/libraries/sencha-io/sencha-io-0.7.13/src/io/Object.js:279-291 | the result, the object's new fields and the new cache are those of LocalUpdate |
| IoObject.IoObject.Update | application/libraries/sencha-io/sencha-io-0.7.13/src/io/Object.js:248-269 | the local update happens first and is never rolled back; one `update` request follows unless it raised; the callback gets nothing on success and the error on failure |
| IoObject.IoObject.RemoveCached | application/libraries/sencha-io/sencha-io-0.7.13/src/io/Object.js:297-301 | drops `[className, id]` from both tiers |
| IoObject.IoObject.Destroy | application/libraries/sencha-io/sencha-io-0.7.13/src/io/Object.js:315-335 | sends one `destroy` and reports its outcome; it changes nothing locally and never touches the cache |
| IoObject.IoObject.CreateRelatedObject | application/libraries/sencha-io/sencha-io-0.7.13/src/io/Object.js:353-375 | sends one request; on success a new proxy of the given class, or of this object's class when the class is missing or empty (`klass||this.$className`) |
| IoObject.IoObject.GetRelatedObject | application/libraries/sencha-io/sencha-io-0.7.13/src/io/Object.js:393-418 | sends one request; a truthy answer gives a new proxy, a falsy one a null object and no error |
| IoObject.IoObject.GetRelatedObjects | application/libraries/sencha-io/sencha-io-0.7.13/src/io/Object.js:435-460 | sends one request; on success one new proxy per returned config, same length and order |
| IoObject.IoObject.FindRelatedObjects | application/libraries/sencha-io/sencha-io-0.7.13/src/io/Object.js:479-504 | sends one request; on success one new proxy per returned config, same length and order |
| Errors.NameOf | application/libraries/sencha-io/sencha-io-0.7.13/src/io/Errors.js:11-256 | a code that is found names a record registered under that very code |
| Errors.Lookup | application/libraries/sencha-io/sencha-io-0.7.13/src/io/Errors.js:11-256 | lookup by code finds a record exactly when some record is registered under that code |
| Errors.CodeIsName | application/libraries/sencha-io/sencha-io-0.7.13/src/io/Errors.js:11-256 | every record's `code` is the name it is registered under |
| Errors.Registered | application/libraries/sencha-io/sencha-io-0.7.13/src/io/Errors.js:11-256 | looking up a registered name finds that name |
| Errors.NoSuchName | application/libraries/sencha-io/sencha-io-0.7.13/src/io/Errors.js:11-256 | a code the lookup misses is registered under no name |
| Errors.CodesDistinct | application/libraries/sencha-io/sencha-io-0.7.13/src/io/Errors.js:11-12 | no two records share a code, so lookup by code is a function |
| Errors.LookupEntry | application/libraries/sencha-io/sencha-io-0.7.13/src/io/Errors.js:11-256 | looking up a record's own code finds that record |
| Errors.KindClassification | application/libraries/sencha-io/sencha-io-0.7.13/src/io/Errors.js:11-256 | `kind` is absent exactly for the two connectivity errors, `sio` exactly for the five service-side errors, `developer` for all others, and never anything else |
| Errors.NamedKinds | application/libraries/sencha-io/sencha-io-0.7.13/src/io/Errors.js:21-106 | `RPC_TIMEOUT` is `developer`; `NETWORK_ERROR` and `WEBSOCKET_NOT_READY` carry no kind |
| Errors.SlotsMentioned | application/libraries/sencha-io/sencha-io-0.7.13/src/io/Errors.js:62-82 | every placeholder of a template appears as `:name` in the rendered message |
| Errors.ParamMissingSlots | application/libraries/sencha-io/sencha-io-0.7.13/src/io/Errors.js:62 | the `PARAM_MISSING` template's only placeholder is `name` |
| Errors.ParamsLengthMismatchSlots | application/libraries/sencha-io/sencha-io-0.7.13/src/io/Errors.js:72 | the `PARAMS_LENGTH_MISMATCH` template's placeholders are `actual` and `expected` |
| Errors.ParamTypeMismatchSlots | application/libraries/sencha-io/sencha-io-0.7.13/src/io/Errors.js:82 | the `PARAM_TYPE_MISMATCH` template's placeholders are `name`, `expected` and `actual` |
| Errors.ParamMissingPlaceholders | application/libraries/sencha-io/sencha-io-0.7.13/src/io/Errors.js:60-65 | the `PARAM_MISSING` message contains `:name` |
| Errors.ParamsLengthMismatchPlaceholders | application/libraries/sencha-io/sencha-io-0.7.13/src/io/Errors.js:70-75 | the `PARAMS_LENGTH_MISMATCH` message contains `:actual` and `:expected` |
| Errors.ParamTypeMismatchPlaceholders | application/libraries/sencha-io/sencha-io-0.7.13/src/io/Errors.js:80-85 | the `PARAM_TYPE_MISMATCH` message contains `:name`, `:expected` and `:actual` |

## Left out

- RPC transport (`Ext.io.Io.getMessagingProxy`, `messaging.getService`, the `namingRpc.*` calls): asynchronous and not part of this model. Each call is an outcome parameter, and a failed service lookup is the same `Failure(err)` as a failed call.
- Callbacks, scopes and timing: each operation returns what its callback would receive, exactly once. An exception thrown inside a callback becomes `Threw`.
- `Ext.util.Observable.fireEvent`: foreign library code. It is modelled as an appended event log.
- `Ext.io.Io.registerForNamingEvents`/`unregisterForNamingEvents`: foreign library code. It is modelled as the registration flag only, and the `properties` argument is not recorded.
- The remote push path that calls `_update(data, true)`: its dispatcher is not part of this model. `_update` itself is modelled with `isRemote` as a parameter.
- `Ext.create`: it is reflective class construction. The class is a name, and createObject's optional class is an `Option`.
- IoObject.IoObject.GetRelatedObject: its class argument is modelled by its name, so the TypeError that `klass.$className` (Object.js:410) raises for an undefined class is not modelled.
- IoObject.IoObject.GetRelatedObjects: its class argument is modelled by its name, so the TypeError that `klass.$className` (Object.js:452) raises for an undefined class is not modelled.
- IoObject.IoObject.FindRelatedObjects: its class argument is modelled by its name, so the TypeError that `klass.$className` (Object.js:496) raises for an undefined class is not modelled.
- Js.Put: a new key always goes last. JavaScript lists integer-like keys (`"0"`, `"12"`) first, in ascending numeric order, before the other keys in insertion order, and `JSON.parse` builds its objects the same way. So for an object with such a key, the model's JSON text can order members differently from what setObjectConfig writes: `o = {b: 1}; o["0"] = 2` is stored as `{"0":2,"b":1}` by JavaScript and as `{"b":1,"0":2}` in the model. This arises when `_update` merges such a key into data, or when parsed text is stored again. Reads are not affected, because member lookup does not depend on order.
- ConfigStore.StoreKey: String() of an object with its own `toString` member raises in JavaScript, because values here hold no functions and that member cannot be called. The model gives `[object Object]` instead, for the key itself and for such an object inside a key array. Every core call site passes `[className, key]` (Object.js:97, 113, 132, 284, 299).
- Js.MergeData: only top-level effects are stated; the result for nested plain objects is not specified beyond being a plain object. Ext's library code is not part of this model.
- Js.MergeData: an array destination is kept unchanged, because `Js.Value`'s arrays carry no named properties. `Ext.Object.merge` would instead assign each data key on the array, so merging `{"0": 5}` into `[1, 2]` gives `[5, 2]` in JavaScript.
- Js.SetProperty: assigning a property of an array is ignored, because `Js.Value`'s arrays carry no named properties. So for a cached config that is an array, `objConf.data = merged` (Object.js:287) is lost in the model. In JavaScript a later memory hit hands createObject an array whose `data` reads as `merged`, while the model's `InitOf` gives undefined. The stored JSON text is the same either way.
- Js.MergeData: `Ext.Object.merge` mutates its destination in place. Data that aliases the cached config is not modelled: merges are modelled on values, and the cache refresh is modelled explicitly.
- Json.Parse: it accepts the text the printer writes (integers, no whitespace, `\uXXXX` only for non-surrogates). It rejects other valid JSON, such as fractions, exponents, whitespace and surrogate pairs. So a store entry written by other code in those forms reads as a SyntaxError.
- Json.Stringify: integers only; floating point, `toJSON`, functions and cyclic structures are not modelled.
- JavaScript numbers are modelled as unbounded integers; floating point is left out.
- `window.localStorage`: quota errors are not modelled.
- `window.localStorage` key order: `localStorage.key(i)` follows the browser's order, which is modelled as insertion order.
- LocalStore.LocalStore.ListKeys: the source reads the global `localStorage` without the availability guard, so it throws when there is no store. The model keeps no keys for an absent store, so it returns an empty list.
- LocalStore.LocalStore.SetItem: it takes a string. The config store always passes JSON text or `"undefined"`, which is what `localStorage` makes of `undefined`.
- `memCache` is a plain JavaScript object. Inherited property names such as `constructor` would read through its prototype, but every key starts with `sencha-io-config-`, so this cannot arise and is not modelled.
- IoObject.IoObject.FindObjects: a successful listing is modelled as an array of configs. A success value that is not an array (whose `length` the loop would read) is not modelled. The same holds for GetRelatedObjects and FindRelatedObjects.
- IoObject.IoObject.constructor: the source also copies a `_key` member of its argument into the id. createObject's argument never has one, so that branch is not modelled.
- `Ext.io.Io.getConfigStore()`: the process-wide config store is passed in explicitly.
- Errors: every record's message and suggestion text is modelled, but no property is stated about the suggestions.
