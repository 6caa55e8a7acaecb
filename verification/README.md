# Thingpedia client core: per-device example index and generic device loader

This project models, in Dafny, the two parts of the Thingpedia API library
that carry real logic.

- **The file-backed Thingpedia client** (`FileThingpediaClient`) reads a
  devices file, an optional entities file and an optional dataset file once.
  It memoises that load in `_loaded`, which keeps a failed load as well. For
  each example of the dataset it collects the distinct device kinds its
  primitives reference. An example with exactly one kind goes into that
  kind's bucket. `getExamplesByKinds` splits a comma-separated kind list and
  concatenates the buckets in the requested order. It wraps them in a dataset
  named `@org.thingpedia.dynamic.by_kinds.` followed by the kinds joined with
  `__`, with language `en`. `getDeviceCode` returns the first class of the
  requested kind or rejects with `Not Found`. `getSchemas` returns the whole
  devices file.
- **The generic device-module loader** (`BaseGenericModule`) chooses the
  device's state-field names from its config mixin. For
  `org.thingpedia.config.form` they are the keys of the `params` argument.
  For `org.thingpedia.config.oauth2` they are the `profile` list, or none.
  Any other module, or no mixin, gives none. The loader synthesises a device
  class whose constructor maps those names, in order, to `state[name]`. The
  mixin's `install` runs on the class, then the manifest and its metadata are
  attached. `getDeviceClass` caches the class once loading succeeds, and a
  failed load leaves the cache empty. `clearCache` does nothing.

Modules:

- `Wrappers`, `Errors`: `Option`/`Result`/`Outcome` and the rejection reasons.
- `JsObjects`: property reads on plain JavaScript objects, which also see inherited `Object.prototype` members.
- `Text`: JavaScript `split` with a one-character separator, and `join`.
- `Manifests`: class definitions, config mixins and mixin-argument values.
- `ExampleIndex`: kind collection, bucketing, and bucket concatenation.
- `FileClient`: the memoised load and the client calls.
- `GenericLoader`: parameter extraction, class synthesis, the cache and device construction.
- `PrototypeIndex`: the index as a plain JavaScript object (see Findings).

Promises are modelled as `Result` values. Each client or loader call is a
function from the old state to the new state and the settled result.
File contents and the parsers (`JSON.parse`, `ThingTalk.Grammar.parse`) are
passed in an `Env` value. The config mixin's `install` and
`makeBaseDeviceMetadata` are passed in a `Collaborators` value. Either
collaborator may fail.

Behaviour worth noting:

- `clearCache` is a no-op. After it the loader returns the class it had cached.
- A form mixin without a `params` argument makes loading throw, because
  `Object.keys(undefined)` throws.
- The form state fields are the `params` object's keys, in enumeration order.
- Only the form and oauth2 mixins yield state fields. The interactive and
  discovery mixins yield none.
- The loader never compares manifest versions. A newer manifest needs a new loader.
- The file client's `getExamplesByKinds` takes a comma-separated string and
  calls `split`, although the abstract client interface declares `string[]`.
- The client probes its buckets with `in` on a plain object, which also sees
  inherited names such as `toString`. `PrototypeIndex` models that behaviour.
  The client model uses an own-key index (see Findings).

## Model

| member | source | states |
|---|---|---|
| `ExampleIndex.DeviceKinds` | lib/file_thingpedia_client.js:51-55 | the kind list built for an example has no duplicates and holds exactly the kinds of its device-selector primitives |
| `ExampleIndex.DeviceKindsCountsDistinctKinds` | lib/file_thingpedia_client.js:51-56 | the kind list's length is the number of distinct device kinds, so `primitives.length === 1` means "exactly one device" |
| `ExampleIndex.SoleKind` | lib/file_thingpedia_client.js:56-57 | an example has a sole kind iff it references exactly one distinct device kind, and that kind is the whole kind set |
| `ExampleIndex.IndexMatchesBuckets` | lib/file_thingpedia_client.js:50-63 | each bucket the loading loop builds is the subsequence of dataset examples whose sole kind is its key, in dataset order; a key exists only when its bucket is non-empty (created on first insert) |
| `ExampleIndex.BucketCount` | lib/file_thingpedia_client.js:50-63 | each dataset occurrence of an example appears once in the bucket of its sole kind and in no other bucket; ambiguous examples appear in none |
| `ExampleIndex.BucketMembership` | lib/file_thingpedia_client.js:56-62 | an example is in bucket `k` iff it is in the dataset and `k` is its only device kind |
| `ExampleIndex.BucketsDisjoint` | lib/file_thingpedia_client.js:50-63 | buckets of different kinds share no example |
| `ExampleIndex.RegenerateIsConcatOfBuckets` | lib/file_thingpedia_client.js:101-107 | the regenerated example list is the concatenation of the requested kinds' buckets, in request order; absent kinds add nothing and repeated kinds repeat their bucket |
| `ExampleIndex.RegenerateTwoKinds` | lib/file_thingpedia_client.js:103-107 | asking for `[a, b]` gives bucket a then bucket b, and `[b, a]` the reverse |
| `ExampleIndex.TwitterWeatherSoleKinds` | lib/file_thingpedia_client.js:51-57 | the twitter-only and weather-only examples have a sole kind; the mixed one has none |
| `ExampleIndex.TwitterWeatherScenario` | lib/file_thingpedia_client.js:50-107 | three examples (twitter, twitter+weather, weather) index to `{com.twitter: [e1], com.weather: [e3]}`, and asking for weather,twitter gives `[e3, e1]` |
| `Text.Split` | lib/file_thingpedia_client.js:101 | `split(',')` yields at least one piece and no piece contains the separator |
| `Text.SplitThenJoin` | lib/file_thingpedia_client.js:101 | joining the pieces with the separator restores the original string |
| `Text.JoinThenSplit` | lib/file_thingpedia_client.js:101 | a non-empty list of separator-free pieces survives join-then-split unchanged |
| `Text.ReplaceChar` | lib/file_thingpedia_client.js:109 | replacing each comma by a comma-free string leaves no comma |
| `Text.JoinSplitIsReplace` | lib/file_thingpedia_client.js:101-109 | splitting on `,` and joining with `__` is the same as replacing each `,` by `__` |
| `FileClient.EnsureLoaded` | lib/file_thingpedia_client.js:69-74 | the first call runs the load and stores its outcome, failure included; later calls return the stored outcome and change nothing, whatever the environment has become |
| `FileClient.LoadOutcome` | lib/file_thingpedia_client.js:38-67 | the load succeeds iff the devices file exists, a named entities file exists and parses, and a named dataset file exists and parses to at least one dataset; a successful load keeps the devices text and the parsed entity `data`, has entities and a dataset exactly when non-empty file names are given, and holds the reference buckets of the first parsed dataset |
| `FileClient.GetSchemas` | lib/file_thingpedia_client.js:76-81 | returns the whole devices text of the load, and rejects when the load did |
| `FileClient.GetSchemasIgnoresKinds` | lib/file_thingpedia_client.js:79-80 | the result does not depend on the kinds or metadata flag asked for |
| `FileClient.FindClass` | lib/file_thingpedia_client.js:87-91 | returns the first class with the requested kind, or `Not Found` iff no class has it |
| `FileClient.GetDeviceCode` | lib/file_thingpedia_client.js:82-92 | load and parse failures propagate; otherwise returns the code of the first class of the kind, and rejects with `Not Found` iff there is none |
| `FileClient.GetAllExamples` | lib/file_thingpedia_client.js:94-97 | returns the stored dataset text (null without a dataset file), and rejects when the load did |
| `FileClient.GetAllEntityTypes` | lib/file_thingpedia_client.js:129-132 | returns the stored entity list (null without an entities file), and rejects when the load did |
| `FileClient.DeviceNames` | lib/file_thingpedia_client.js:118-126 | one name record per class, in file order, with its kind and canonical name |
| `FileClient.GetAllDeviceNames` | lib/file_thingpedia_client.js:115-127 | load and parse failures propagate; otherwise one record per parsed class, in order |
| `FileClient.GetExamplesByKinds` | lib/file_thingpedia_client.js:99-113 | the dataset has language `en`, no annotations, and a name of the prefix followed by the kinds with each comma replaced by `__`; its examples are the stored buckets of the split kinds |
| `FileClient.ExamplesByKindsOnFreshClient` | lib/file_thingpedia_client.js:99-113 | on a fresh client whose files load, the result is the named `en` dataset of the requested buckets of the parsed dataset, in request order |
| `FileClient.Perform` | lib/file_thingpedia_client.js:76-132 | every client call leaves the client as `_ensureLoaded` does |
| `FileClient.LoadedClientIsStable` | lib/file_thingpedia_client.js:69-74 | once a load outcome is stored, no sequence of calls changes the client |
| `FileClient.FreshClientLoadsOnce` | lib/file_thingpedia_client.js:69-74 | from a fresh client, any non-empty call sequence runs the load exactly once, with the first call's environment, and keeps that outcome |
| `GenericLoader.ExtractParams` | lib/loaders/base_generic.ts:44-52 | no mixin or a module other than form/oauth2 gives no names and no failure; oauth2 never fails; a failure is a TypeError |
| `GenericLoader.FormParamsAreKeys` | lib/loaders/base_generic.ts:47-49 | for the form mixin the names are the `params` object's keys, or the index strings `"0"`…`"n-1"` for an array; a missing or undefined `params` makes loading fail |
| `GenericLoader.OAuth2ParamsAreProfile` | lib/loaders/base_generic.ts:50-51 | for the oauth2 mixin the names are the `profile` list, or none when it is missing or undefined |
| `GenericLoader.OtherConfigsLoadWithoutParams` | lib/loaders/base_generic.ts:44-70 | with no mixin or another module, loading fails only when `install` or the metadata builder throws, maps no state, and runs `install` exactly when a mixin is present |
| `GenericLoader.LoadModule` | lib/loaders/base_generic.ts:44-71 | a loaded class carries the extracted names, the manifest and its metadata, and was installed once by its mixin iff there is one; loading fails iff extraction, `install` or metadata fails |
| `GenericLoader.MapState` | lib/loaders/base_generic.ts:59 | the parameter list is as long as the name list; entry i is the own field `state[names[i]]`, else the inherited `Object.prototype` member of that name, else undefined |
| `GenericLoader.Construct` | lib/loaders/base_generic.ts:57-60 | a device's `params[i]` is what `state[names[i]]` reads on a plain object (own field, inherited member, or undefined) for each i; construction throws only when the profile was not an array |
| `GenericLoader.GetDeviceClass` | lib/loaders/base_generic.ts:90-100 | with a cached class it returns it and changes nothing; otherwise it loads once, caches the class on success and leaves the cache empty on failure |
| `GenericLoader.CachedClassIsStable` | lib/loaders/base_generic.ts:90-100 | once a class is cached, any call sequence leaves the loader unchanged and every `getDeviceClass` returns that class |
| `GenericLoader.FailedLoadsRetry` | lib/loaders/base_generic.ts:91-97 | while loads fail, the cache stays empty and every `getDeviceClass` retries the load and rejects |
| `GenericLoader.AccessorsAreFixed` | lib/loaders/base_generic.ts:73-81 | `id` is the constructor's kind and `version` the manifest's `version` annotation, and no call changes them |
| `GenericLoader.ClearCacheKeepsClass` | lib/loaders/base_generic.ts:86-88 | after `clearCache` the loader returns the class it loaded before, without reloading |
| `GenericLoader.OAuth2DeviceParams` | lib/loaders/base_generic.ts:50-60 | an oauth2 class with profile `["id_str"]` is installed by the oauth2 mixin, and its devices carry `[state.id_str]` |
| `GenericLoader.ReplacedManifestNeedsNewLoader` | lib/loaders/base_generic.ts:36-100 | a version-1 loader keeps its class across `clearCache`; a loader for the version-2 oauth2 manifest maps `id_str` |
| `PrototypeIndex.LoadRejectsInheritedKind` | lib/file_thingpedia_client.js:58-61 | as written, a dataset with an example whose only kind is `toString` fails to load; the own-key index puts that example in its bucket |
| `PrototypeIndex.RegenerateLetsInheritedMemberThrough` | lib/file_thingpedia_client.js:105-106 | as written, asking for `constructor` adds an inherited non-example element; the own-key lookup adds nothing |
| `PrototypeIndex.LoadAgreesOffPrototype` | lib/file_thingpedia_client.js:50-63 | when no example's kind is an inherited name, the as-written loop builds the same index as the own-key one |
| `PrototypeIndex.RegenerateAgreesOffPrototype` | lib/file_thingpedia_client.js:103-107 | when no requested kind is an inherited name, the as-written concatenation equals the own-key one |

## Left out

- `lib/lang.js` (prototype and class-construction machinery), `lib/base_client.ts` (abstract client signatures and `getMixins`, which reads a JSON file not part of this model), `lib/helpers/content.js` (URL and IP checks and stream fetching through external libraries) and `lib/utilities/simple_action.js` (a deprecated forwarding wrapper) are not modelled. They hold no logic of the two subsystems.
- File reading, `JSON.parse`, ThingTalk parsing and pretty-printing are outside the model. Files are a map from path to text. The parsers are functions in `Env`. A class's pretty-printed form is its `code` field. `getExamplesByKinds` returns the dataset record instead of the printed `Library`.
- Promise and async behaviour is modelled synchronously. Sharing one in-flight load between concurrent callers has no counterpart. Memoising the settled outcome is modelled.
- `FileClient.Perform`, `FileClient.FreshClientLoadsOnce`: the environment of each call is an arbitrary value. The model does not require the files to stay the same between calls, because only the first call reads them.
- `ConfigMixins.get` is not part of this model. A manifest carries the config mixin it finds, if any.
- The bodies of the mixins' `install` methods, `makeBaseDeviceMetadata` and `BaseDevice` are external. `install` and the metadata builder are opaque functions that may throw. The `BaseDevice` constructor and its `engine` argument are not modelled.
- `checkAvailable` always reports `AVAILABLE`. The `locale`, `manifest` and `config` getters return stored values unchanged. None of them is modelled separately.
- Mixin argument values are limited to an object (its keys in enumeration order), an array of strings, or `undefined`. JavaScript puts integer-like object keys first. The model takes the key order as given. Other JavaScript values (numbers, strings, `null`) are not modelled.
- FileClient.LoadOutcome: the client model indexes with own keys, so a dataset with an example whose only kind is an inherited `Object.prototype` name (one of the 12 in `JsObjects.ObjectPrototypeMembers`) loads, where `_load` throws at line 59. That as-written behaviour is modelled by `PrototypeIndex.BuildIndexAsWritten`. The two agree for every other dataset (`PrototypeIndex.LoadAgreesOffPrototype`).
- FileClient.GetExamplesByKinds: a requested kind that is an inherited `Object.prototype` name contributes nothing here, where line 106 appends the inherited member. That as-written behaviour is modelled by `PrototypeIndex.RegenerateAsWritten`. The two agree for every other kind list (`PrototypeIndex.RegenerateAgreesOffPrototype`).
- FileClient.ExamplesByKindsOnFreshClient: states the own-key behaviour, so it does not cover the inherited names above. For them, see `PrototypeIndex.LoadRejectsInheritedKind` and `PrototypeIndex.RegenerateLetsInheritedMemberThrough`.
- Strings are sequences of characters. UTF-16 code units are not modelled.

## Findings

| source | as written | input that shows it | evidently intended | confidence | as-written member | corrected member |
|---|---|---|---|---|---|---|
| lib/file_thingpedia_client.js:58-61 | `device in this._examples` on a plain `{}` is true for inherited names, and `.push` on the inherited member throws | a dataset with one example whose only device kind is `toString` | a test for an own bucket, so the example starts a new bucket | medium, not executed | `PrototypeIndex.LoadRejectsInheritedKind` | `ExampleIndex.IndexMatchesBuckets` |
| lib/file_thingpedia_client.js:105-106 | the same `in` test lets an inherited member through, and `concat` appends it as one element; that array then goes to `new Ast.Dataset` and `library.prettyprint()` (lines 110-112), so what the caller sees is decided by the printer, most likely a rejection; the printer is not part of this model | `getExamplesByKinds("constructor")` on any loaded client | an absent kind contributes nothing | medium, not executed | `PrototypeIndex.RegenerateLetsInheritedMemberThrough` | `ExampleIndex.RegenerateIsConcatOfBuckets` |
