/** The per-device index as the client keeps it: a plain object `{}`, probed
    with `key in obj`. That test also holds for the members the object inherits
    from `Object.prototype`, so those names behave as if they had a bucket. */
module PrototypeIndex {
  import opened Wrappers
  import opened Errors
  import opened ExampleIndex
  import opened JsObjects

  /** `k in obj` for the object holding the buckets `index`. */
  predicate InObject(index: Index, k: string)
  {
    k in index || k in ObjectPrototypeMembers
  }

  /** An element of the array `getExamplesByKinds` builds: an example, or an
      inherited member that `concat` appended as a single value. */
  datatype Item = ExampleItem(example: Example) | InheritedMember(name: string)

  /** The loading loop as written: an inherited name counts as an existing
      bucket, and calling `push` on the inherited member throws. */
  function BuildIndexAsWritten(examples: seq<Example>): Result<Index, Error>
  {
    if |examples| == 0 then Success(map[])
    else
      var index :- BuildIndexAsWritten(examples[..|examples| - 1]);
      var e := examples[|examples| - 1];
      match SoleKind(e)
      case None => Success(index)
      case Some(k) =>
        if InObject(index, k) then
          if k in index then Success(index[k := index[k] + [e]])
          else Failure(TypeError("this._examples[device].push is not a function"))
        else Success(index[k := [e]])
  }

  function AsItems(examples: seq<Example>): (items: seq<Item>)
    ensures |items| == |examples|
    ensures forall i :: 0 <= i < |examples| ==> items[i] == ExampleItem(examples[i])
  {
    if |examples| == 0 then [] else [ExampleItem(examples[0])] + AsItems(examples[1..])
  }

  /** The loop of `getExamplesByKinds` as written: an inherited name passes the
      `in` test and its member is concatenated as one element. */
  function RegenerateAsWritten(index: Index, devices: seq<string>): seq<Item>
  {
    if |devices| == 0 then []
    else
      var acc := RegenerateAsWritten(index, devices[..|devices| - 1]);
      var d := devices[|devices| - 1];
      if InObject(index, d) then
        if d in index then acc + AsItems(index[d]) else acc + [InheritedMember(d)]
      else acc
  }

  /** An example whose one device kind is `toString`. */
  function ToStringExample(): Example
  {
    Example(0, [Primitive(Device("toString"), "get")])
  }

  /** As written, a dataset holding an example whose only device kind is an
      inherited name fails to load; the own-key index puts it in its bucket. */
  lemma LoadRejectsInheritedKind()
    ensures BuildIndexAsWritten([ToStringExample()]).Failure?
    ensures Lookup(BuildIndex([ToStringExample()]), "toString") == [ToStringExample()]
  {
  }

  /** As written, asking for the kinds `constructor` yields a non-example
      element; the own-key lookup contributes nothing for an absent kind. */
  lemma RegenerateLetsInheritedMemberThrough(index: Index)
    requires "constructor" !in index
    ensures RegenerateAsWritten(index, ["constructor"]) == [InheritedMember("constructor")]
    ensures Regenerate(index, ["constructor"]) == []
  {
  }

  lemma AsItemsAppend(a: seq<Example>, b: seq<Example>)
    ensures AsItems(a + b) == AsItems(a) + AsItems(b)
  {
  }

  /** Away from inherited names the as-written loop and the own-key index agree. */
  lemma {:induction false} LoadAgreesOffPrototype(examples: seq<Example>)
    requires forall i :: 0 <= i < |examples| && SoleKind(examples[i]).Some? ==> SoleKind(examples[i]).value !in ObjectPrototypeMembers
    ensures BuildIndexAsWritten(examples) == Success(BuildIndex(examples))
    decreases |examples|
  {
    if |examples| > 0 {
      var init := examples[..|examples| - 1];
      assert forall i :: 0 <= i < |init| ==> init[i] == examples[i];
      LoadAgreesOffPrototype(init);
    }
  }

  /** Away from inherited names the as-written regeneration yields the own-key one. */
  lemma {:induction false} RegenerateAgreesOffPrototype(index: Index, devices: seq<string>)
    requires forall i :: 0 <= i < |devices| ==> devices[i] !in ObjectPrototypeMembers
    ensures RegenerateAsWritten(index, devices) == AsItems(Regenerate(index, devices))
    decreases |devices|
  {
    if |devices| > 0 {
      var init := devices[..|devices| - 1];
      var d := devices[|devices| - 1];
      assert forall i :: 0 <= i < |init| ==> init[i] == devices[i];
      RegenerateAgreesOffPrototype(index, init);
      if d in index {
        AsItemsAppend(Regenerate(index, init), index[d]);
      }
    }
  }
}
