/** Property reads on plain JavaScript objects: `obj[k]` and `k in obj` also
    see the members every object inherits from `Object.prototype`. */
module JsObjects {

  /** The properties every plain object inherits from `Object.prototype`. */
  const ObjectPrototypeMembers: set<string> := {
    "constructor", "hasOwnProperty", "isPrototypeOf", "propertyIsEnumerable",
    "toLocaleString", "toString", "valueOf", "__proto__",
    "__defineGetter__", "__defineSetter__", "__lookupGetter__", "__lookupSetter__"}

  /** What `obj[k]` reads from a plain object whose own properties are `own`. */
  datatype Read<V> = Own(value: V) | Inherited(name: string) | Missing  // `Missing` reads as `undefined`

  function ReadProperty<V>(own: map<string, V>, k: string): Read<V>
  {
    if k in own then Own(own[k]) else if k in ObjectPrototypeMembers then Inherited(k) else Missing
  }
}
