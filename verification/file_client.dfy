/** The file-backed Thingpedia client: loads a devices file, an optional
    entities file and an optional dataset file once, indexes the dataset's
    examples per device kind, and answers the client API from that state. */
module FileClient {
  import opened Wrappers
  import opened Errors
  import Text
  import opened Manifests
  import opened ExampleIndex

  const ByKindsPrefix := "@org.thingpedia.dynamic.by_kinds."

  /** An entry of the entities file's `data` array. */
  datatype EntityType = EntityType(entityType: string, name: string, isWellKnown: bool, hasNerSupport: bool)

  /** What `ThingTalk.Grammar.parse` yields for a file: its classes and datasets. */
  datatype Library = Library(classes: seq<ClassDef>, datasets: seq<Dataset>)

  /** The constructor arguments. A file name is used only when it is a
      non-empty string, as JavaScript truthiness decides. */
  datatype Options = Options(locale: string, thingpedia: string, entities: Option<string>, dataset: Option<string>)

  /** The outside world: file contents by path, and the parsers the client calls. */
  datatype Env = Env(
    files: map<string, string>,
    parseLibrary: string -> Result<Library, Error>,
    parseEntities: string -> Result<seq<EntityType>, Error>)

  /** What a successful load leaves behind: `_devices`, `_entities`, `_dataset`, `_examples`. */
  datatype Loaded = Loaded(devices: string, entities: Option<seq<EntityType>>, dataset: Option<string>, examples: Index)

  /** The client: its options, the memoised load (`_loaded`, which keeps a
      failed load as well), and how many times the load has run. */
  datatype Client = Client(options: Options, loaded: Option<Result<Loaded, Error>>, loadRuns: nat)

  /** A call's effect: the client afterwards and the settled promise. */
  datatype Step<T> = Step(client: Client, result: Result<T, Error>)

  function NewClient(options: Options): Client
  {
    Client(options, None, 0)
  }

  predicate Truthy(name: Option<string>)
  {
    name.Some? && name.value != ""
  }

  function ReadFile(env: Env, path: string): Result<string, Error>
  {
    if path in env.files then Success(env.files[path]) else Failure(ReadError(path))
  }

  /** `_load`: read the devices file; read and parse the entities file if one is
      named; read and parse the dataset file if one is named, then bucket the
      examples of its first dataset. */
  function Load(options: Options, env: Env): Result<Loaded, Error>
  {
    var devices :- ReadFile(env, options.thingpedia);
    var entities :-
      if Truthy(options.entities) then
        var text :- ReadFile(env, options.entities.value);
        var data :- env.parseEntities(text);
        Success(Some(data))
      else Success(None);
    if !Truthy(options.dataset) then Success(Loaded(devices, entities, None, map[]))
    else
      var text :- ReadFile(env, options.dataset.value);
      var library :- env.parseLibrary(text);
      if |library.datasets| == 0 then Failure(TypeError("cannot read property 'examples' of undefined"))
      else Success(Loaded(devices, entities, Some(text), BuildIndex(library.datasets[0].examples)))
  }

  /** `_ensureLoaded`: the first call runs the load and stores its outcome,
      success or failure; every later call returns the stored outcome and
      changes nothing, whatever the environment has become. */
  function EnsureLoaded(c: Client, env: Env): (step: Step<Loaded>)
    ensures step.client.options == c.options
    ensures step.client.loaded == Some(step.result)
    ensures c.loaded.Some? ==> step.client == c && step.result == c.loaded.value
    ensures c.loaded.None? ==> step.result == Load(c.options, env) && step.client.loadRuns == c.loadRuns + 1
  {
    match c.loaded
    case Some(r) => Step(c, r)
    case None =>
      var r := Load(c.options, env);
      Step(c.(loaded := Some(r), loadRuns := c.loadRuns + 1), r)
  }

  /** `getSchemas`: the whole devices file, whatever kinds are asked for. */
  function GetSchemas(c: Client, env: Env, kinds: seq<string>, useMeta: bool): (step: Step<string>)
    ensures step.client == EnsureLoaded(c, env).client
    ensures step.result.Success? <==> EnsureLoaded(c, env).result.Success?
    ensures step.result.Success? ==> step.result.value == EnsureLoaded(c, env).result.value.devices
  {
    var s := EnsureLoaded(c, env);
    match s.result
    case Failure(e) => Step(s.client, Failure(e))
    case Success(l) => Step(s.client, Success(l.devices))
  }

  /** The first class of `classes` whose kind is `kind`. */
  function FindClass(classes: seq<ClassDef>, kind: string): (r: Result<ClassDef, Error>)
    ensures r.Failure? <==> forall i :: 0 <= i < |classes| ==> classes[i].kind != kind
    ensures r.Failure? ==> r.error == NotFound
    ensures r.Success? ==> exists i :: 0 <= i < |classes| && classes[i] == r.value && r.value.kind == kind
                                     && forall j :: 0 <= j < i ==> classes[j].kind != kind
  {
    if |classes| == 0 then Failure(NotFound)
    else if classes[0].kind == kind then Success(classes[0])
    else
      var r := FindClass(classes[1..], kind);
      if r.Success? then
        var i :| 0 <= i < |classes| - 1 && classes[1..][i] == r.value && r.value.kind == kind
                 && forall j :: 0 <= j < i ==> classes[1..][j].kind != kind;
        assert classes[i + 1] == r.value;
        assert forall j :: 0 <= j < i + 1 ==> classes[j].kind != kind by {
          forall j | 0 <= j < i + 1 ensures classes[j].kind != kind {
            if j > 0 { assert classes[j] == classes[1..][j - 1]; }
          }
        }
        r
      else
        assert forall i :: 0 <= i < |classes| ==> classes[i].kind != kind by {
          forall i | 0 <= i < |classes| ensures classes[i].kind != kind {
            if i > 0 { assert classes[i] == classes[1..][i - 1]; }
          }
        }
        r
  }

  /** `getDeviceCode`: parse the devices file and pretty-print the first class of the
      requested kind; reject with `Not Found` when there is none. */
  function GetDeviceCode(c: Client, env: Env, kind: string): (step: Step<string>)
    ensures step.client == EnsureLoaded(c, env).client
    ensures EnsureLoaded(c, env).result.Failure? ==> step.result == Failure(EnsureLoaded(c, env).result.error)
    ensures EnsureLoaded(c, env).result.Success? ==>
      var library := env.parseLibrary(EnsureLoaded(c, env).result.value.devices);
      && (library.Failure? ==> step.result == Failure(library.error))
      && (library.Success? ==>
            var classes := library.value.classes;
            && (step.result.Failure? <==> forall i :: 0 <= i < |classes| ==> classes[i].kind != kind)
            && (step.result.Failure? ==> step.result.error == NotFound)
            && (step.result.Success? ==>
                  exists i :: 0 <= i < |classes| && classes[i].kind == kind && step.result.value == classes[i].code
                              && forall j :: 0 <= j < i ==> classes[j].kind != kind))
  {
    var s := EnsureLoaded(c, env);
    match s.result
    case Failure(e) => Step(s.client, Failure(e))
    case Success(l) =>
      match env.parseLibrary(l.devices)
      case Failure(e) => Step(s.client, Failure(e))
      case Success(library) =>
        match FindClass(library.classes, kind)
        case Failure(e) => Step(s.client, Failure(e))
        case Success(cls) => Step(s.client, Success(cls.code))
  }

  /** `getAllExamples`: the dataset file's text, `None` (null) when no dataset file is named. */
  function GetAllExamples(c: Client, env: Env): (step: Step<Option<string>>)
    ensures step.client == EnsureLoaded(c, env).client
    ensures step.result.Success? <==> EnsureLoaded(c, env).result.Success?
    ensures step.result.Success? ==> step.result.value == EnsureLoaded(c, env).result.value.dataset
  {
    var s := EnsureLoaded(c, env);
    match s.result
    case Failure(e) => Step(s.client, Failure(e))
    case Success(l) => Step(s.client, Success(l.dataset))
  }

  /** `getAllEntityTypes`: the entities file's `data`, `None` (null) when no entities file is named. */
  function GetAllEntityTypes(c: Client, env: Env): (step: Step<Option<seq<EntityType>>>)
    ensures step.client == EnsureLoaded(c, env).client
    ensures step.result.Success? <==> EnsureLoaded(c, env).result.Success?
    ensures step.result.Success? ==> step.result.value == EnsureLoaded(c, env).result.value.entities
  {
    var s := EnsureLoaded(c, env);
    match s.result
    case Failure(e) => Step(s.client, Failure(e))
    case Success(l) => Step(s.client, Success(l.entities))
  }

  /** A record of `getAllDeviceNames`. */
  datatype DeviceName = DeviceName(kind: string, kindCanonical: string)

  function DeviceNames(classes: seq<ClassDef>): (names: seq<DeviceName>)
    ensures |names| == |classes|
    ensures forall i :: 0 <= i < |classes| ==> names[i] == DeviceName(classes[i].kind, classes[i].canonical)
  {
    if |classes| == 0 then [] else [DeviceName(classes[0].kind, classes[0].canonical)] + DeviceNames(classes[1..])
  }

  /** `getAllDeviceNames`: kind and canonical name of every class of the devices file, in file order. */
  function GetAllDeviceNames(c: Client, env: Env): (step: Step<seq<DeviceName>>)
    ensures step.client == EnsureLoaded(c, env).client
    ensures step.result.Success? <==>
      EnsureLoaded(c, env).result.Success? && env.parseLibrary(EnsureLoaded(c, env).result.value.devices).Success?
    ensures step.result.Success? ==>
      var classes := env.parseLibrary(EnsureLoaded(c, env).result.value.devices).value.classes;
      |step.result.value| == |classes| &&
      forall i :: 0 <= i < |classes| ==> step.result.value[i] == DeviceName(classes[i].kind, classes[i].canonical)
  {
    var s := EnsureLoaded(c, env);
    match s.result
    case Failure(e) => Step(s.client, Failure(e))
    case Success(l) =>
      match env.parseLibrary(l.devices)
      case Failure(e) => Step(s.client, Failure(e))
      case Success(library) => Step(s.client, Success(DeviceNames(library.classes)))
  }

  /** The name of a regenerated dataset: the prefix, then the requested kinds joined with `__`. */
  function ByKindsName(devices: seq<string>): string
  {
    ByKindsPrefix + Text.Join(devices, "__")
  }

  /** `getExamplesByKinds`: split the comma-separated kinds, concatenate their
      buckets in that order, and wrap them in a dataset for locale `en`. */
  function GetExamplesByKinds(c: Client, env: Env, kinds: string): (step: Step<Dataset>)
    ensures step.client == EnsureLoaded(c, env).client
    ensures step.result.Success? <==> EnsureLoaded(c, env).result.Success?
    ensures step.result.Success? ==>
      var d := step.result.value;
      && d.language == "en"
      && d.annotations == map[]
      && d.name == ByKindsPrefix + Text.ReplaceChar(kinds, ',', "__")
      && d.examples == Regenerate(EnsureLoaded(c, env).result.value.examples, Text.Split(kinds, ','))
  {
    var s := EnsureLoaded(c, env);
    match s.result
    case Failure(e) => Step(s.client, Failure(e))
    case Success(l) =>
      var devices := Text.Split(kinds, ',');
      Text.JoinSplitIsReplace(kinds, ',', "__");
      Step(s.client, Success(Dataset(ByKindsName(devices), "en", Regenerate(l.examples, devices), map[])))
  }

  /** What a load produces, stated from the options and the files. */
  lemma LoadOutcome(options: Options, env: Env)
    ensures options.thingpedia !in env.files ==> Load(options, env) == Failure(ReadError(options.thingpedia))
    ensures Load(options, env).Success? <==>
      && options.thingpedia in env.files
      && (Truthy(options.entities) ==>
            options.entities.value in env.files && env.parseEntities(env.files[options.entities.value]).Success?)
      && (Truthy(options.dataset) ==>
            && options.dataset.value in env.files
            && env.parseLibrary(env.files[options.dataset.value]).Success?
            && |env.parseLibrary(env.files[options.dataset.value]).value.datasets| > 0)
    ensures Load(options, env).Success? && Truthy(options.entities) ==>
      Load(options, env).value.entities == Some(env.parseEntities(env.files[options.entities.value]).value)
    ensures Load(options, env).Success? ==>
      var l := Load(options, env).value;
      && options.thingpedia in env.files
      && l.devices == env.files[options.thingpedia]
      && (l.entities.None? <==> !Truthy(options.entities))
      && (l.dataset.None? <==> !Truthy(options.dataset))
      && (!Truthy(options.dataset) ==> l.examples == map[])
    ensures Load(options, env).Success? && Truthy(options.dataset) ==>
      var l := Load(options, env).value;
      && options.dataset.value in env.files
      && l.dataset == Some(env.files[options.dataset.value])
      && var library := env.parseLibrary(env.files[options.dataset.value]);
      && library.Success?
      && |library.value.datasets| > 0
      && forall k :: Lookup(l.examples, k) == Bucket(library.value.datasets[0].examples, k)
  {
    if Load(options, env).Success? && Truthy(options.dataset) {
      var library := env.parseLibrary(env.files[options.dataset.value]);
      IndexMatchesBuckets(library.value.datasets[0].examples);
    }
  }

  /** End to end: on a fresh client whose files load, `getExamplesByKinds(kinds)`
      is the dataset of the buckets of the comma-separated kinds, in that order. */
  lemma ExamplesByKindsOnFreshClient(options: Options, env: Env, kinds: string)
    requires Load(options, env).Success? && Truthy(options.dataset)
    ensures
      var library := env.parseLibrary(env.files[options.dataset.value]);
      && library.Success? && |library.value.datasets| > 0
      && GetExamplesByKinds(NewClient(options), env, kinds).result ==
           Success(Dataset(ByKindsPrefix + Text.ReplaceChar(kinds, ',', "__"), "en",
                           ConcatBuckets(library.value.datasets[0].examples, Text.Split(kinds, ',')), map[]))
  {
    var library := env.parseLibrary(env.files[options.dataset.value]);
    RegenerateIsConcatOfBuckets(library.value.datasets[0].examples, Text.Split(kinds, ','));
  }

  /** `getSchemas` does not look at its arguments. */
  lemma GetSchemasIgnoresKinds(c: Client, env: Env, k1: seq<string>, m1: bool, k2: seq<string>, m2: bool)
    ensures GetSchemas(c, env, k1, m1) == GetSchemas(c, env, k2, m2)
  {
  }

  /** The calls of the client API that go through `_ensureLoaded`. */
  datatype Call =
    | Schemas(kinds: seq<string>, useMeta: bool)
    | DeviceCode(kind: string)
    | AllExamples
    | ExamplesByKinds(kindList: string)
    | AllDeviceNames
    | AllEntityTypes

  /** The client after one call. */
  function Perform(c: Client, env: Env, call: Call): (c': Client)
    ensures c' == EnsureLoaded(c, env).client
  {
    match call
    case Schemas(k, u) => GetSchemas(c, env, k, u).client
    case DeviceCode(k) => GetDeviceCode(c, env, k).client
    case AllExamples => GetAllExamples(c, env).client
    case ExamplesByKinds(k) => GetExamplesByKinds(c, env, k).client
    case AllDeviceNames => GetAllDeviceNames(c, env).client
    case AllEntityTypes => GetAllEntityTypes(c, env).client
  }

  /** The client after a sequence of calls, the i-th made while the world is `envs[i]`. */
  function Run(c: Client, envs: seq<Env>, calls: seq<Call>): Client
    requires |envs| == |calls|
    decreases |calls|
  {
    if |calls| == 0 then c else Run(Perform(c, envs[0], calls[0]), envs[1..], calls[1..])
  }

  /** Once a load outcome is stored, no call changes the client again. */
  lemma {:induction false} LoadedClientIsStable(c: Client, envs: seq<Env>, calls: seq<Call>)
    requires |envs| == |calls|
    requires c.loaded.Some?
    ensures Run(c, envs, calls) == c
    decreases |calls|
  {
    if |calls| > 0 {
      LoadedClientIsStable(Perform(c, envs[0], calls[0]), envs[1..], calls[1..]);
    }
  }

  /** From a fresh client, any non-empty sequence of calls runs the load exactly
      once, with the world as the first call saw it, and keeps that outcome,
      failure included. */
  lemma FreshClientLoadsOnce(options: Options, envs: seq<Env>, calls: seq<Call>)
    requires |envs| == |calls| >= 1
    ensures Run(NewClient(options), envs, calls).loaded == Some(Load(options, envs[0]))
    ensures Run(NewClient(options), envs, calls).loadRuns == 1
  {
    var c1 := Perform(NewClient(options), envs[0], calls[0]);
    LoadedClientIsStable(c1, envs[1..], calls[1..]);
  }
}
