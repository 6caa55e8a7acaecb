/** The generic device-module loader: picks the state-field names from the
    config mixin, synthesises a device class that maps those fields of its
    persisted state to `params`, and caches the class once loading succeeds. */
module GenericLoader {
  import opened Wrappers
  import opened Errors
  import Text
  import opened Manifests
  import opened JsObjects

  const FormModule := "org.thingpedia.config.form"
  const OAuth2Module := "org.thingpedia.config.oauth2"

  /** The names a synthesised class maps state through. `NotAnArray` is the
      oauth2 `profile` given as an object: loading keeps it, and constructing a
      device then throws because the object has no `map`. */
  datatype ParamNames = Names(names: seq<string>) | NotAnArray

  /** Descriptive metadata built from the manifest (opaque here). */
  datatype Metadata = Metadata(fields: map<string, string>)

  /** A synthesised `GenericDevice` class: its state-field names, the config
      modules whose `install` decorated it (in call order), and the attached
      `manifest` and `metadata`. */
  datatype DeviceClass = DeviceClass(params: ParamNames, installedBy: seq<string>, manifest: ClassDef, metadata: Metadata)

  /** The collaborators `_loadModule` calls and cannot see into: the config
      mixin's `install` and `makeBaseDeviceMetadata`. Either may throw. */
  datatype Collaborators = Collaborators(
    install: ConfigMixin -> Outcome<Error>,
    makeMetadata: ClassDef -> Result<Metadata, Error>)

  /** The loader: the kind it was built for, the manifest, the config mixin
      found in it, the cached class, and how many times `_loadModule` has run. */
  datatype Loader = Loader(id: string, manifest: ClassDef, config: Option<ConfigMixin>, loaded: Option<DeviceClass>, loadRuns: nat)

  datatype LoaderStep = LoaderStep(loader: Loader, result: Result<DeviceClass, Error>)

  function NewLoader(kind: string, ast: ClassDef): Loader
  {
    Loader(kind, ast, ast.config, None, 0)
  }

  /** `Object.keys(v)`: an object's own keys, an array's indices; `undefined`
      (and an absent argument, which is `undefined` too) throws. */
  function ObjectKeys(v: Option<MixinValue>): Result<seq<string>, Error>
  {
    match v
    case None => Failure(TypeError("Cannot convert undefined or null to object"))
    case Some(Undefined) => Failure(TypeError("Cannot convert undefined or null to object"))
    case Some(ArgMap(keys)) => Success(keys)
    case Some(StringArray(items)) => Success(seq(|items|, i requires 0 <= i => Text.NatToString(i)))
  }

  /** `findMixinArg(mixin, 'profile') as string[] || []`: an absent or undefined
      profile falls back to no names; any array, empty ones included, is kept. */
  function ProfileOrEmpty(v: Option<MixinValue>): ParamNames
  {
    match v
    case None => Names([])
    case Some(Undefined) => Names([])
    case Some(StringArray(items)) => Names(items)
    case Some(ArgMap(_)) => NotAnArray
  }

  /** The first half of `_loadModule`: the state-field names by config module. */
  function ExtractParams(config: Option<ConfigMixin>): (r: Result<ParamNames, Error>)
    ensures config.None? ==> r == Success(Names([]))
    ensures config.Some? && config.value.moduleName != FormModule && config.value.moduleName != OAuth2Module ==>
              r == Success(Names([]))
    ensures config.Some? && config.value.moduleName == OAuth2Module ==> r.Success?
    ensures r.Failure? ==> r.error.TypeError?
  {
    match config
    case None => Success(Names([]))
    case Some(mixin) =>
      if mixin.moduleName == FormModule then
        var keys :- ObjectKeys(FindMixinArg(mixin, "params"));
        Success(Names(keys))
      else if mixin.moduleName == OAuth2Module then
        Success(ProfileOrEmpty(FindMixinArg(mixin, "profile")))
      else Success(Names([]))
  }

  /** `_loadModule`: extract the names, build the class, let the config mixin
      install itself on it, then attach the manifest and its metadata. */
  function LoadModule(manifest: ClassDef, config: Option<ConfigMixin>, hooks: Collaborators): (r: Result<DeviceClass, Error>)
    ensures r.Success? ==>
      && ExtractParams(config).Success?
      && r.value.params == ExtractParams(config).value
      && r.value.manifest == manifest
      && hooks.makeMetadata(manifest) == Success(r.value.metadata)
      && (config.None? ==> r.value.installedBy == [])
      && (config.Some? ==> r.value.installedBy == [config.value.moduleName] && hooks.install(config.value) == Pass)
    ensures r.Failure? <==>
      || ExtractParams(config).Failure?
      || (config.Some? && hooks.install(config.value).Fail?)
      || hooks.makeMetadata(manifest).Failure?
  {
    var params :- ExtractParams(config);
    var installedBy :-
      match config
      case None => Success([])
      case Some(mixin) =>
        match hooks.install(mixin)
        case Pass => Success([mixin.moduleName])
        case Fail(e) => Failure(e);
    var metadata :- hooks.makeMetadata(manifest);
    Success(DeviceClass(params, installedBy, manifest, metadata))
  }

  /** `getDeviceClass`: load on the first call and whenever the cache is still
      empty; a failed load leaves the cache empty and rejects. */
  function GetDeviceClass(l: Loader, hooks: Collaborators): (step: LoaderStep)
    ensures step.loader.id == l.id && step.loader.manifest == l.manifest && step.loader.config == l.config
    ensures l.loaded.Some? ==> step == LoaderStep(l, Success(l.loaded.value))
    ensures l.loaded.None? ==>
      && step.result == LoadModule(l.manifest, l.config, hooks)
      && step.loader.loadRuns == l.loadRuns + 1
      && (step.result.Success? ==> step.loader.loaded == Some(step.result.value))
      && (step.result.Failure? ==> step.loader.loaded.None?)
  {
    match l.loaded
    case Some(cls) => LoaderStep(l, Success(cls))
    case None =>
      match LoadModule(l.manifest, l.config, hooks)
      case Success(cls) => LoaderStep(l.(loaded := Some(cls), loadRuns := l.loadRuns + 1), Success(cls))
      case Failure(e) => LoaderStep(l.(loadRuns := l.loadRuns + 1), Failure(e))
  }

  /** `clearCache`: there is nothing to clear. */
  function ClearCache(l: Loader): Loader
  {
    l
  }

  /** The `id` accessor. */
  function Id(l: Loader): string
  {
    l.id
  }

  /** The `version` accessor: the manifest's `version` implementation annotation. */
  function Version(l: Loader): Option<int>
  {
    l.manifest.version
  }

  /** A device built from a synthesised class. */
  datatype Device<V> = Device(cls: DeviceClass, state: map<string, V>, params: seq<Read<V>>)

  /** `names.map((k) => state[k])` on the plain state object: an own field is
      read as is, a missing field named like an `Object.prototype` member reads
      that inherited member, and any other missing field reads `undefined`. */
  function MapState<V>(names: seq<string>, state: map<string, V>): (params: seq<Read<V>>)
    ensures |params| == |names|
    ensures forall i :: 0 <= i < |names| && names[i] in state ==> params[i] == Own(state[names[i]])
    ensures forall i :: 0 <= i < |names| && names[i] !in state && names[i] in ObjectPrototypeMembers ==>
              params[i] == Inherited(names[i])
    ensures forall i :: 0 <= i < |names| && names[i] !in state && names[i] !in ObjectPrototypeMembers ==>
              params[i] == Missing
  {
    if |names| == 0 then []
    else [ReadProperty(state, names[0])] + MapState(names[1..], state)
  }

  /** The `GenericDevice` constructor: `params[i]` is `state[names[i]]`. */
  function Construct<V>(cls: DeviceClass, state: map<string, V>): (r: Result<Device<V>, Error>)
    ensures r.Success? <==> cls.params.Names?
    ensures r.Failure? ==> r.error.TypeError?
    ensures r.Success? ==>
      var names := cls.params.names;
      && r.value.cls == cls && r.value.state == state
      && |r.value.params| == |names|
      && forall i :: 0 <= i < |names| ==>
           r.value.params[i] == (if names[i] in state then Own(state[names[i]])
                                 else if names[i] in ObjectPrototypeMembers then Inherited(names[i])
                                 else Missing)
  {
    match cls.params
    case NotAnArray => Failure(TypeError("params.map is not a function"))
    case Names(names) => Success(Device(cls, state, MapState(names, state)))
  }

  /** For the form mixin the names are the keys of the `params` argument (the
      indices `"0"`, `"1"`, ... for an array), and a missing or undefined
      `params` makes loading throw. */
  lemma FormParamsAreKeys(mixin: ConfigMixin)
    requires mixin.moduleName == FormModule
    ensures "params" in mixin.args && mixin.args["params"].ArgMap? ==>
              ExtractParams(Some(mixin)) == Success(Names(mixin.args["params"].keys))
    ensures "params" in mixin.args && mixin.args["params"].StringArray? ==>
              ExtractParams(Some(mixin)) == Success(Names(seq(|mixin.args["params"].items|, i requires 0 <= i => Text.NatToString(i))))
    ensures "params" !in mixin.args || mixin.args["params"] == Undefined ==> ExtractParams(Some(mixin)).Failure?
  {
  }

  /** For the oauth2 mixin the names are the `profile` list, or none without one. */
  lemma OAuth2ParamsAreProfile(mixin: ConfigMixin)
    requires mixin.moduleName == OAuth2Module
    ensures "profile" in mixin.args && mixin.args["profile"].StringArray? ==>
              ExtractParams(Some(mixin)) == Success(Names(mixin.args["profile"].items))
    ensures "profile" !in mixin.args || mixin.args["profile"] == Undefined ==> ExtractParams(Some(mixin)) == Success(Names([]))
  {
  }

  /** Without a config mixin, or with one of another module, the class maps no
      state, loading fails only if a collaborator throws, and `install` runs
      exactly when there is a mixin. */
  lemma OtherConfigsLoadWithoutParams(manifest: ClassDef, config: Option<ConfigMixin>, hooks: Collaborators)
    requires config.Some? ==> config.value.moduleName != FormModule && config.value.moduleName != OAuth2Module
    ensures LoadModule(manifest, config, hooks).Failure? <==>
              (config.Some? && hooks.install(config.value).Fail?) || hooks.makeMetadata(manifest).Failure?
    ensures LoadModule(manifest, config, hooks).Success? ==>
              var cls := LoadModule(manifest, config, hooks).value;
              cls.params == Names([]) && |cls.installedBy| == (if config.Some? then 1 else 0)
  {
  }

  /** A call on the loader: `getDeviceClass` with the collaborators as they are then, or `clearCache`. */
  datatype LoaderOp = Get(hooks: Collaborators) | Clear

  /** The loader after a sequence of calls, and what each `getDeviceClass` settled to. */
  function RunLoader(l: Loader, ops: seq<LoaderOp>): (Loader, seq<Result<DeviceClass, Error>>)
    decreases |ops|
  {
    if |ops| == 0 then (l, [])
    else
      match ops[0]
      case Clear => RunLoader(ClearCache(l), ops[1..])
      case Get(hooks) =>
        var step := GetDeviceClass(l, hooks);
        var rest := RunLoader(step.loader, ops[1..]);
        (rest.0, [step.result] + rest.1)
  }

  function CountGets(ops: seq<LoaderOp>): nat
  {
    if |ops| == 0 then 0 else (if ops[0].Get? then 1 else 0) + CountGets(ops[1..])
  }

  /** Once a class is cached, no call loads again, `clearCache` included, and
      every `getDeviceClass` resolves to that same class. */
  lemma {:induction false} CachedClassIsStable(l: Loader, ops: seq<LoaderOp>)
    requires l.loaded.Some?
    ensures RunLoader(l, ops).0 == l
    ensures |RunLoader(l, ops).1| == CountGets(ops)
    ensures forall i :: 0 <= i < |RunLoader(l, ops).1| ==> RunLoader(l, ops).1[i] == Success(l.loaded.value)
    decreases |ops|
  {
    if |ops| > 0 {
      CachedClassIsStable(l, ops[1..]);
    }
  }

  /** While every load attempt throws, the cache stays empty and each
      `getDeviceClass` retries the load and rejects. */
  lemma {:induction false} FailedLoadsRetry(l: Loader, ops: seq<LoaderOp>)
    requires l.loaded.None?
    requires forall i :: 0 <= i < |ops| && ops[i].Get? ==> LoadModule(l.manifest, l.config, ops[i].hooks).Failure?
    ensures RunLoader(l, ops).0.loaded.None?
    ensures RunLoader(l, ops).0.loadRuns == l.loadRuns + CountGets(ops)
    ensures |RunLoader(l, ops).1| == CountGets(ops)
    ensures forall i :: 0 <= i < |RunLoader(l, ops).1| ==> RunLoader(l, ops).1[i].Failure?
    decreases |ops|
  {
    if |ops| > 0 {
      var next := if ops[0].Get? then GetDeviceClass(l, ops[0].hooks).loader else ClearCache(l);
      assert next.manifest == l.manifest && next.config == l.config;
      assert forall i :: 0 <= i < |ops[1..]| && ops[1..][i].Get? ==> LoadModule(next.manifest, next.config, ops[1..][i].hooks).Failure? by {
        forall i | 0 <= i < |ops[1..]| && ops[1..][i].Get?
          ensures LoadModule(next.manifest, next.config, ops[1..][i].hooks).Failure?
        {
          assert ops[1..][i] == ops[i + 1];
        }
      }
      FailedLoadsRetry(next, ops[1..]);
    }
  }

  /** `id` is the kind the loader was built for and `version` the manifest's
      annotation; no call changes either. */
  lemma {:induction false} AccessorsAreFixed(kind: string, ast: ClassDef, l: Loader, ops: seq<LoaderOp>)
    requires l.id == kind && l.manifest == ast
    ensures Id(NewLoader(kind, ast)) == kind && Version(NewLoader(kind, ast)) == ast.version
    ensures Id(RunLoader(l, ops).0) == kind && Version(RunLoader(l, ops).0) == ast.version
    decreases |ops|
  {
    if |ops| > 0 {
      var next := if ops[0].Get? then GetDeviceClass(l, ops[0].hooks).loader else ClearCache(l);
      AccessorsAreFixed(kind, ast, next, ops[1..]);
    }
  }

  /** `clearCache` does not force a reload: the class loaded before it is
      the class returned after it. */
  lemma ClearCacheKeepsClass(l: Loader, first: Collaborators, second: Collaborators)
    requires GetDeviceClass(l, first).result.Success?
    ensures GetDeviceClass(ClearCache(GetDeviceClass(l, first).loader), second) ==
              LoaderStep(GetDeviceClass(l, first).loader, GetDeviceClass(l, first).result)
  {
  }

  /** A device of an oauth2 class with profile `["id_str"]` carries the state's `id_str`. */
  lemma OAuth2DeviceParams<V>(kind: string, ast: ClassDef, hooks: Collaborators, state: map<string, V>)
    requires ast.config == Some(ConfigMixin(OAuth2Module, map["profile" := StringArray(["id_str"])]))
    requires GetDeviceClass(NewLoader(kind, ast), hooks).result.Success?
    ensures var cls := GetDeviceClass(NewLoader(kind, ast), hooks).result.value;
            cls.params == Names(["id_str"]) && cls.installedBy == [OAuth2Module] &&
            Construct(cls, state).Success? &&
            Construct(cls, state).value.params == [if "id_str" in state then Own(state["id_str"]) else Missing]
  {
  }

  /** The version-1 manifest without config is loaded; after `clearCache` the same
      loader still returns that class. A loader built for the version-2 manifest
      with an oauth2 profile `["id_str"]` maps `id_str`. */
  lemma ReplacedManifestNeedsNewLoader(kind: string, v1: ClassDef, v2: ClassDef, hooks: Collaborators)
    requires v1.version == Some(1) && v1.config.None?
    requires v2.version == Some(2) && v2.config == Some(ConfigMixin(OAuth2Module, map["profile" := StringArray(["id_str"])]))
    requires hooks.makeMetadata(v1).Success? && hooks.makeMetadata(v2).Success?
    requires hooks.install(v2.config.value) == Pass
    ensures var old1 := GetDeviceClass(NewLoader(kind, v1), hooks);
            && old1.result.Success? && old1.result.value.params == Names([])
            && GetDeviceClass(ClearCache(old1.loader), hooks).result == old1.result
    ensures var newer := GetDeviceClass(NewLoader(kind, v2), hooks);
            newer.result.Success? && newer.result.value.params == Names(["id_str"]) && Version(newer.loader) == Some(2)
  {
  }
}
