/** Parsed ThingTalk class manifests, as the loader and the client see them. */
module Manifests {
  import opened Wrappers

  /** The JavaScript value `Utils.findMixinArg` hands back for one mixin argument. */
  datatype MixinValue =
    | ArgMap(keys: seq<string>)       // an object; `keys` in enumeration order
    | StringArray(items: seq<string>) // an array of strings
    | Undefined                       // present but undefined

  /** A config mixin (`import config from @org.thingpedia.config.*(...)`), as
      `ConfigMixins.get` returns it: the mixin's module name and its arguments. */
  datatype ConfigMixin = ConfigMixin(moduleName: string, args: map<string, MixinValue>)

  /** One class definition: its kind, the display name used by `getAllDeviceNames`,
      the `version` implementation annotation, its config mixin if any, and its
      pretty-printed source. */
  datatype ClassDef = ClassDef(
    kind: string,
    canonical: string,
    version: Option<int>,
    config: Option<ConfigMixin>,
    code: string)

  /** `Utils.findMixinArg`: the value of the named argument, `None` when absent. */
  function FindMixinArg(mixin: ConfigMixin, name: string): Option<MixinValue>
  {
    if name in mixin.args then Some(mixin.args[name]) else None
  }
}
