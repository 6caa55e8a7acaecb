/** The per-device example index of the file-backed Thingpedia client:
    which device kinds an example references, the bucket each unambiguous
    example lands in, and the concatenation of buckets that
    `getExamplesByKinds` returns. */
module ExampleIndex {
  import opened Wrappers

  /** A primitive's selector: a concrete device of some kind, or a builtin. */
  datatype Selector = Device(kind: string) | Builtin

  /** One primitive invocation, as `example.iteratePrimitives()` yields it. */
  datatype Primitive = Primitive(selector: Selector, channel: string)

  /** An example program, reduced to an identifier and its primitives in traversal order. */
  datatype Example = Example(id: int, primitives: seq<Primitive>)

  /** A dataset: `new Ast.Dataset(name, language, examples, annotations)`. */
  datatype Dataset = Dataset(name: string, language: string, examples: seq<Example>, annotations: map<string, string>)

  /** Bucket per device kind, as the plain object `this._examples`. */
  type Index = map<string, seq<Example>>

  predicate NoDuplicates<T(==)>(s: seq<T>)
  {
    forall i, j :: 0 <= i < j < |s| ==> s[i] != s[j]
  }

  /** Some primitive of `prims` selects a device of kind `k`. */
  ghost predicate ReferencesDevice(prims: seq<Primitive>, k: string)
  {
    exists i :: 0 <= i < |prims| && prims[i].selector == Device(k)
  }

  /** The set of distinct device kinds `prims` references. */
  function DeviceKindSet(prims: seq<Primitive>): set<string>
  {
    set i | 0 <= i < |prims| && prims[i].selector.Device? :: prims[i].selector.kind
  }

  /** The kind list the loading loop builds for one example: walk the
      primitives in order, keep device kinds not seen before. */
  function DeviceKinds(prims: seq<Primitive>): (kinds: seq<string>)
    ensures NoDuplicates(kinds)
    ensures forall k :: k in kinds <==> ReferencesDevice(prims, k)
  {
    if |prims| == 0 then []
    else
      var init := prims[..|prims| - 1];
      var acc := DeviceKinds(init);
      var p := prims[|prims| - 1];
      assert forall k :: ReferencesDevice(prims, k) <==> ReferencesDevice(init, k) || p.selector == Device(k) by {
        forall k ensures ReferencesDevice(prims, k) ==> ReferencesDevice(init, k) || p.selector == Device(k) {
          if ReferencesDevice(prims, k) {
            var i :| 0 <= i < |prims| && prims[i].selector == Device(k);
            if i < |init| { assert init[i] == prims[i]; }
          }
        }
        forall k | ReferencesDevice(init, k) ensures ReferencesDevice(prims, k) {
          var i :| 0 <= i < |init| && init[i].selector == Device(k);
          assert prims[i] == init[i];
        }
      }
      if p.selector.Device? && p.selector.kind !in acc then acc + [p.selector.kind] else acc
  }

  lemma {:induction false} DistinctSeqCardinality<T>(s: seq<T>)
    requires NoDuplicates(s)
    ensures |set x | x in s| == |s|
  {
    if |s| > 0 {
      var init := s[..|s| - 1];
      DistinctSeqCardinality(init);
      assert (set x | x in s) == (set x | x in init) + {s[|s| - 1]};
      assert s[|s| - 1] !in init;
    }
  }

  /** The kind list has exactly as many entries as there are distinct device kinds. */
  lemma DeviceKindsCountsDistinctKinds(prims: seq<Primitive>)
    ensures (set k | k in DeviceKinds(prims)) == DeviceKindSet(prims)
    ensures |DeviceKinds(prims)| == |DeviceKindSet(prims)|
  {
    var kinds := DeviceKinds(prims);
    forall k | k in DeviceKindSet(prims) ensures k in kinds {
      var i :| 0 <= i < |prims| && prims[i].selector.Device? && prims[i].selector.kind == k;
      assert prims[i].selector == Device(k);
    }
    DistinctSeqCardinality(kinds);
  }

  /** The one device kind an example references, or `None` when it references
      none or several (the test `primitives.length === 1`). */
  function SoleKind(e: Example): (r: Option<string>)
    ensures r.Some? <==> |DeviceKindSet(e.primitives)| == 1
    ensures r.Some? ==> DeviceKindSet(e.primitives) == {r.value}
  {
    var kinds := DeviceKinds(e.primitives);
    DeviceKindsCountsDistinctKinds(e.primitives);
    if |kinds| == 1 then
      assert kinds[0] in kinds;
      Some(kinds[0])
    else None
  }

  /** The loading loop over the dataset, example by example, in order: an
      example with a sole kind is appended to that kind's bucket, which is
      created on first insert; other examples are skipped. */
  function BuildIndex(examples: seq<Example>): Index
  {
    if |examples| == 0 then map[]
    else
      var index := BuildIndex(examples[..|examples| - 1]);
      var e := examples[|examples| - 1];
      match SoleKind(e)
      case None => index
      case Some(k) => if k in index then index[k := index[k] + [e]] else index[k := [e]]
  }

  /** Reference definition of one bucket: the examples whose sole kind is `k`,
      in dataset order. */
  function Bucket(examples: seq<Example>, k: string): seq<Example>
  {
    if |examples| == 0 then []
    else (if SoleKind(examples[0]) == Some(k) then [examples[0]] else []) + Bucket(examples[1..], k)
  }

  /** A bucket of the index, empty when the kind has none (`device in this._examples` fails). */
  function Lookup(index: Index, k: string): seq<Example>
  {
    if k in index then index[k] else []
  }

  lemma {:induction false} BucketAppend(examples: seq<Example>, e: Example, k: string)
    ensures Bucket(examples + [e], k) == Bucket(examples, k) + (if SoleKind(e) == Some(k) then [e] else [])
    decreases |examples|
  {
    if |examples| > 0 {
      assert (examples + [e])[1..] == examples[1..] + [e];
      BucketAppend(examples[1..], e, k);
    }
  }

  /** The index the loop builds holds exactly the reference buckets, and a key
      exists only for a kind whose bucket is non-empty. */
  lemma {:induction false} IndexMatchesBuckets(examples: seq<Example>)
    ensures forall k :: Lookup(BuildIndex(examples), k) == Bucket(examples, k)
    ensures forall k :: k in BuildIndex(examples) <==> Bucket(examples, k) != []
    decreases |examples|
  {
    if |examples| > 0 {
      var init := examples[..|examples| - 1];
      var e := examples[|examples| - 1];
      assert examples == init + [e];
      IndexMatchesBuckets(init);
      forall k ensures Bucket(examples, k) == Bucket(init, k) + (if SoleKind(e) == Some(k) then [e] else []) {
        BucketAppend(init, e, k);
      }
    }
  }

  /** Each occurrence of an example in the dataset yields one occurrence in the
      bucket of its sole kind and none anywhere else. */
  lemma {:induction false} BucketCount(examples: seq<Example>, k: string, e: Example)
    ensures multiset(Bucket(examples, k))[e] == if SoleKind(e) == Some(k) then multiset(examples)[e] else 0
    decreases |examples|
  {
    if |examples| > 0 {
      BucketCount(examples[1..], k, e);
      assert examples == [examples[0]] + examples[1..];
    }
  }

  /** An example is in bucket `k` iff it is in the dataset and `k` is its one device kind. */
  lemma BucketMembership(examples: seq<Example>, k: string, e: Example)
    ensures e in Bucket(examples, k) <==> e in examples && |DeviceKindSet(e.primitives)| == 1 && k in DeviceKindSet(e.primitives)
  {
  }

  /** Buckets of different kinds share no example. */
  lemma BucketsDisjoint(examples: seq<Example>, k1: string, k2: string)
    requires k1 != k2
    ensures multiset(Bucket(examples, k1)) !! multiset(Bucket(examples, k2))
  {
    forall e ensures multiset(Bucket(examples, k1))[e] == 0 || multiset(Bucket(examples, k2))[e] == 0 {
      BucketCount(examples, k1, e);
      BucketCount(examples, k2, e);
    }
  }

  /** The loop of `getExamplesByKinds`: for each requested kind in order, append
      its bucket if the index has one. */
  function Regenerate(index: Index, devices: seq<string>): seq<Example>
  {
    if |devices| == 0 then []
    else
      var acc := Regenerate(index, devices[..|devices| - 1]);
      var d := devices[|devices| - 1];
      if d in index then acc + index[d] else acc
  }

  /** Reference: the buckets of `devices`, concatenated in the requested order. */
  function ConcatBuckets(examples: seq<Example>, devices: seq<string>): seq<Example>
  {
    if |devices| == 0 then []
    else Bucket(examples, devices[0]) + ConcatBuckets(examples, devices[1..])
  }

  lemma {:induction false} ConcatBucketsAppend(examples: seq<Example>, a: seq<string>, b: seq<string>)
    ensures ConcatBuckets(examples, a + b) == ConcatBuckets(examples, a) + ConcatBuckets(examples, b)
    decreases |a|
  {
    if |a| > 0 {
      assert (a + b)[1..] == a[1..] + b;
      ConcatBucketsAppend(examples, a[1..], b);
    } else {
      assert a + b == b;
    }
  }

  /** Regenerating from the loaded index yields the requested buckets in the
      requested order: absent kinds add nothing and repeated kinds repeat. */
  lemma {:induction false} RegenerateIsConcatOfBuckets(examples: seq<Example>, devices: seq<string>)
    ensures Regenerate(BuildIndex(examples), devices) == ConcatBuckets(examples, devices)
    decreases |devices|
  {
    if |devices| > 0 {
      var init := devices[..|devices| - 1];
      var d := devices[|devices| - 1];
      RegenerateIsConcatOfBuckets(examples, init);
      IndexMatchesBuckets(examples);
      assert Lookup(BuildIndex(examples), d) == Bucket(examples, d);
      ConcatBucketsAppend(examples, init, [d]);
      assert devices == init + [d];
    }
  }

  /** The requested order, not the dataset order, decides the output order. */
  lemma RegenerateTwoKinds(examples: seq<Example>, a: string, b: string)
    ensures Regenerate(BuildIndex(examples), [a, b]) == Bucket(examples, a) + Bucket(examples, b)
    ensures Regenerate(BuildIndex(examples), [b, a]) == Bucket(examples, b) + Bucket(examples, a)
  {
    RegenerateIsConcatOfBuckets(examples, [a, b]);
    RegenerateIsConcatOfBuckets(examples, [b, a]);
    assert [a, b][1..] == [b] && [b, a][1..] == [a];
    assert [a][1..] == [] && [b][1..] == [];
    assert ConcatBuckets(examples, [a]) == Bucket(examples, a);
    assert ConcatBuckets(examples, [b]) == Bucket(examples, b);
  }

  /** Three examples: the first uses only `com.twitter`, the second `com.twitter`
      and `com.weather`, the third only `com.weather`. */
  function TwitterWeatherDataset(): seq<Example>
  {
    [ Example(1, [Primitive(Device("com.twitter"), "post")]),
      Example(2, [Primitive(Device("com.weather"), "current"), Primitive(Device("com.twitter"), "post")]),
      Example(3, [Primitive(Builtin, "notify"), Primitive(Device("com.weather"), "current")]) ]
  }

  lemma TwitterWeatherSoleKinds()
    ensures SoleKind(TwitterWeatherDataset()[0]) == Some("com.twitter")
    ensures SoleKind(TwitterWeatherDataset()[1]) == None
    ensures SoleKind(TwitterWeatherDataset()[2]) == Some("com.weather")
  {
  }

  /** The mixed example is in no bucket, and asking for weather then twitter
      returns the third example before the first. */
  lemma TwitterWeatherScenario()
    ensures BuildIndex(TwitterWeatherDataset()) ==
              map["com.twitter" := [TwitterWeatherDataset()[0]], "com.weather" := [TwitterWeatherDataset()[2]]]
    ensures Regenerate(BuildIndex(TwitterWeatherDataset()), ["com.weather", "com.twitter"]) ==
              [TwitterWeatherDataset()[2], TwitterWeatherDataset()[0]]
  {
    var d := TwitterWeatherDataset();
    TwitterWeatherSoleKinds();
    assert d[..0] == [] && d[..1] == [d[0]] && d[..2] == [d[0], d[1]] && d[..3] == d;
    assert d[..1][..0] == [] && d[..2][..1] == d[..1] && d[..3][..2] == d[..2];
    assert BuildIndex(d[..1]) == map["com.twitter" := [d[0]]];
    assert BuildIndex(d[..2]) == map["com.twitter" := [d[0]]];
    var devices := ["com.weather", "com.twitter"];
    assert devices[..0] == [] && devices[..1] == ["com.weather"];
  }
}
