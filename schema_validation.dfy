/** The validator: every decoded entry is dispatched on its `@type`, checked against
    the registered shape, and counted in the tally. `Classify` decides the fate of one
    entry; `Tally` is the specification of a whole run; `ValidateData` is the loop
    that updates the counts dictionary in place, proved equal to it. */
module SchemaValidation {
  import opened Wrappers
  import opened JsonValue
  import opened Schemas
  import opened Tallies
  import opened SeqMaps
  import SchemaProperties

  /** The fate of a single entry, in the order the loop body decides it: the value of
      `@type` is fetched first, then looked up in the dispatcher table, and only a
      registered type is checked against its shape. */
  function Classify(e: Json): (fate: Fate)
    ensures fate.Ok? <==> Inspectable(e)
    ensures fate.Ok? && fate.value.Valid? ==>
              e.fields["@type"] == JStr(fate.value.typeName) && fate.value.typeName in AllSchemas
  {
    if !e.JObj? then Err(NotAnObject)
    else if "@type" !in e.fields then Err(MissingType)
    else
      var t := e.fields["@type"];
      if t.JArr? || t.JObj? then Err(UnhashableType)
      else if !t.JStr? || t.s !in AllSchemas then Ok(Unknown)
      else if Conforms(AllSchemas[t.s], e) then Ok(Valid(t.s))
      else Ok(Invalid)
  }

  /** The fates of the entries of `data`, in order. */
  function Fates(data: seq<Json>): (fates: seq<Fate>)
    ensures |fates| == |data| && forall j :: 0 <= j < |data| ==> fates[j] == Classify(data[j])
  {
    MapSeq(Classify, data)
  }

  /** The result of validating `data`: the counts, or the first crash. */
  function Tally(data: seq<Json>): (r: Result<map<string, nat>, Crash>)
    ensures r.Ok? ==> ErrorsKey in r.value && UnknownKey in r.value
  {
    Accumulate(Fates(data))
  }

  /** One turn of the validator loop: the entry at position `index` counted into
      `results`. It crashes, or raises the unknown-type counter, or is checked
      against the shape of its registered type. */
  method CountEntry(results: map<string, nat>, entry: Json, index: nat)
      returns (r: Result<map<string, nat>, Crash>)
    requires ErrorsKey in results && UnknownKey in results
    ensures r == Step(Ok(results), Classify(entry), index)
  {
    if !entry.JObj? {
      return Err(Crash(index, NotAnObject));
    }
    if "@type" !in entry.fields {
      return Err(Crash(index, MissingType));
    }
    var t := entry.fields["@type"];
    if t.JArr? || t.JObj? {
      return Err(Crash(index, UnhashableType));
    }
    if !t.JStr? || t.s !in AllSchemas {
      return Ok(results[UnknownKey := results[UnknownKey] + 1]);
    }
    var validated := Conforms(AllSchemas[t.s], entry);
    var counts := CountChecked(results, t.s, validated);
    return Ok(counts);
  }

  /** The rest of the turn for an entry whose `@type` is the registered name `t`
      and whose shape check answered `validated`: a success raises the counter named
      `t`, created at 1 the first time, and a failure raises the error counter. */
  method CountChecked(results: map<string, nat>, t: string, validated: bool) returns (counts: map<string, nat>)
    requires ErrorsKey in results
    ensures counts == Record(results, if validated then Valid(t) else Invalid)
  {
    if validated {
      if t !in results {
        counts := results[t := 1];
      } else {
        counts := results[t := results[t] + 1];
      }
    } else {
      counts := results[ErrorsKey := results[ErrorsKey] + 1];
    }
  }

  /** The validator loop over the entries, in order. */
  method ValidateData(data: seq<Json>) returns (r: Result<map<string, nat>, Crash>)
    ensures r == Tally(data)
  {
    var results: map<string, nat> := map[ErrorsKey := 0, UnknownKey := 0];
    var i := 0;
    while i < |data|
      invariant 0 <= i <= |data|
      invariant Accumulate(Fates(data)[..i]) == Ok(results)
    {
      var next := CountEntry(results, data[i], i);
      NextEntry(data, i);
      if next.Err? {
        AccumulateKeepsCrash(Fates(data), i + 1);
        return next;
      }
      results := next.value;
      i := i + 1;
    }
    assert Fates(data)[..i] == Fates(data);
    r := Ok(results);
  }

  /** One more entry is one more step of the specification. */
  lemma NextEntry(data: seq<Json>, i: nat)
    requires i < |data|
    ensures Accumulate(Fates(data)[..i + 1]) == Step(Accumulate(Fates(data)[..i]), Classify(data[i]), i)
  {
    assert Fates(data)[..i + 1][..i] == Fates(data)[..i];
  }

  // ----------------------------------------------------------------------------
  // Crashes
  // ----------------------------------------------------------------------------

  /** An entry the loop body can look at without raising: a dictionary whose `@type`
      is present and is neither a list nor a dictionary. */
  predicate Inspectable(e: Json)
  {
    e.JObj? && "@type" in e.fields && !e.fields["@type"].JArr? && !e.fields["@type"].JObj?
  }

  /** The run completes exactly when every entry can be inspected. */
  lemma TallyCompletes(data: seq<Json>)
    ensures Tally(data).Ok? <==> forall j :: 0 <= j < |data| ==> Inspectable(data[j])
  {
    var fates := Fates(data);
    AccumulateCompletes(fates);
    assert forall j :: 0 <= j < |data| ==> (fates[j].Ok? <==> Inspectable(data[j]));
  }

  /** A run that aborts names an entry that cannot be inspected, and the crash its
      fate gives. */
  lemma TallyCrash(data: seq<Json>)
    requires Tally(data).Err?
    ensures var crash := Tally(data).error;
            crash.index < |data| && !Inspectable(data[crash.index])
            && Classify(data[crash.index]) == Err(crash.kind)
  {
    AccumulateCrash(Fates(data));
  }

  /** The run stops at the first entry that cannot be inspected, and reports it. */
  lemma FirstCrash(data: seq<Json>, i: nat)
    requires i < |data| && !Inspectable(data[i])
    requires forall j :: 0 <= j < i ==> Inspectable(data[j])
    ensures Tally(data) == Err(Crash(i, if !data[i].JObj? then NotAnObject
                                        else if "@type" !in data[i].fields then MissingType
                                        else UnhashableType))
  {
    var fates := Fates(data);
    forall j | 0 <= j < i
      ensures fates[..i][j].Ok?
    {
      assert fates[..i][j] == Classify(data[j]);
    }
    AccumulateFirstCrash(fates, i);
  }

  /** An entry without `@type` aborts the run rather than being counted as of
      unknown type: the value of `@type` is fetched before its presence is tested. */
  lemma MissingTypeCrashes(data: seq<Json>, i: nat)
    requires i < |data| && data[i].JObj? && "@type" !in data[i].fields
    requires forall j :: 0 <= j < i ==> Inspectable(data[j])
    ensures Tally(data) == Err(Crash(i, MissingType))
  {
    FirstCrash(data, i);
  }

  // ----------------------------------------------------------------------------
  // What each entry does to the counts
  // ----------------------------------------------------------------------------

  /** The fates of `data + [e]` are those of `data` followed by the fate of `e`. */
  lemma FatesAppend(data: seq<Json>, e: Json)
    ensures Fates(data + [e]) == Fates(data) + [Classify(e)]
  {
  }

  /** Appending an entry to a run that completes changes one counter by one: the
      unknown-type counter when its `@type` is not a registered name, the error
      counter when it fails the shape of its type, and otherwise the counter named by
      its `@type`, created at 1 on the type's first success. */
  lemma EntryCounted(data: seq<Json>, e: Json)
    requires Tally(data + [e]).Ok?
    ensures Tally(data).Ok? && Inspectable(e)
    ensures var before := Tally(data).value;
            var after := Tally(data + [e]).value;
            var t := e.fields["@type"];
            && (!t.JStr? || t.s !in AllSchemas ==> BumpedOnce(before, after, UnknownKey))
            && (t.JStr? && t.s in AllSchemas && !Conforms(AllSchemas[t.s], e) ==>
                  BumpedOnce(before, after, ErrorsKey))
            && (t.JStr? && t.s in AllSchemas && Conforms(AllSchemas[t.s], e) ==>
                  && BumpedOnce(before, after, t.s)
                  && (t.s !in before ==> after[t.s] == 1))
  {
    FatesAppend(data, e);
    AppendFate(Fates(data), Classify(e));
    EntryLabel(e);
  }

  /** The counter an inspectable entry raises. */
  lemma EntryLabel(e: Json)
    requires Inspectable(e)
    ensures Classify(e).Ok?
    ensures var t := e.fields["@type"];
            Label(Classify(e).value) ==
              if !t.JStr? || t.s !in AllSchemas then UnknownKey
              else if Conforms(AllSchemas[t.s], e) then t.s
              else ErrorsKey
  {
  }

  /** Every entry of a completed run changes exactly one counter by exactly one. */
  lemma EachEntryBumpsOne(data: seq<Json>, e: Json)
    requires Tally(data + [e]).Ok?
    ensures Tally(data).Ok?
    ensures exists key :: BumpedOnce(Tally(data).value, Tally(data + [e]).value, key)
  {
    FatesAppend(data, e);
    AppendFate(Fates(data), Classify(e));
  }

  // ----------------------------------------------------------------------------
  // The counts of a completed run
  // ----------------------------------------------------------------------------

  /** The counts add up to the number of entries. */
  lemma TallySum(data: seq<Json>)
    requires Tally(data).Ok?
    ensures Total(Tally(data).value) == |data|
  {
    AccumulateSum(Fates(data));
  }

  /** Only an entry whose `@type` is a registered name can pass. */
  lemma ValidOnlyIfRegistered(e: Json)
    requires Classify(e).Ok? && Classify(e).value.Valid?
    ensures e.JObj? && e.fields["@type"] == JStr(Classify(e).value.typeName)
    ensures Classify(e).value.typeName in AllSchemas
  {
  }

  /** Neither fixed counter is a registered type name. */
  lemma CountersNotRegistered()
    ensures ErrorsKey !in AllSchemas && UnknownKey !in AllSchemas
  {
    SchemaProperties.RegisteredNames();
  }

  /** The two fixed counters are always reported, and every other counter is named
      by a registered type, so a success counter never lands on one of them. */
  lemma SuccessKeysRegistered(data: seq<Json>)
    requires Tally(data).Ok?
    ensures ErrorsKey in Tally(data).value && UnknownKey in Tally(data).value
    ensures forall k :: k in Tally(data).value ==> k == ErrorsKey || k == UnknownKey || k in AllSchemas
  {
    var fates := Fates(data);
    AccumulateCounts(fates);
    forall k | k in Tally(data).value && k != ErrorsKey && k != UnknownKey
      ensures k in AllSchemas
    {
      HitsWitness(fates, k);
      var j :| 0 <= j < |fates| && fates[j].Ok? && Label(fates[j].value) == k;
      LabelRegistered(data[j], k);
    }
  }

  /** A counter other than the two fixed ones that an entry raises is named by a
      registered type. */
  lemma LabelRegistered(e: Json, k: string)
    requires Classify(e).Ok? && Label(Classify(e).value) == k
    requires k != ErrorsKey && k != UnknownKey
    ensures k in AllSchemas
  {
    ValidOnlyIfRegistered(e);
  }

  /** Reordering the entries of a run that completes yields the same tally. */
  lemma TallyOrderIndependent(a: seq<Json>, b: seq<Json>)
    requires multiset(a) == multiset(b) && Tally(a).Ok?
    ensures Tally(b) == Tally(a)
  {
    MapPermutation(Classify, a, b);
    AccumulateOrderIndependent(Fates(a), Fates(b));
  }

  // ----------------------------------------------------------------------------
  // A run of three entries
  // ----------------------------------------------------------------------------

  /** A Person with only its name, under the usual context. */
  function SamplePerson(name: string): Json
  {
    JObj(map["@context" := JStr("https://schema.org"), "@type" := JStr("Person"), "name" := JStr(name)])
  }

  /** A Product with a name but no image. */
  function SampleProduct(name: string): Json
  {
    JObj(map["@context" := JStr("https://schema.org"), "@type" := JStr("Product"), "name" := JStr(name)])
  }

  /** An entry whose `@type` is the only key. */
  function SampleTyped(typeName: string): Json
  {
    JObj(map["@type" := JStr(typeName)])
  }

  /** The fate of an entry whose `@type` is a registered name. */
  lemma ClassifyRegistered(e: Json, t: string)
    requires e.JObj? && "@type" in e.fields && e.fields["@type"] == JStr(t) && t in AllSchemas
    ensures Classify(e) == if Conforms(AllSchemas[t], e) then Ok(Valid(t)) else Ok(Invalid)
  {
  }

  /** A minimal Person passes. */
  lemma SamplePersonPasses(name: string)
    ensures Classify(SamplePerson(name)) == Ok(Valid("Person"))
  {
    var e := SamplePerson(name);
    Patterns.ContextExamples();
    SchemaProperties.MinimalPersonPasses("https://schema.org", name);
    assert Conforms(PersonSchema, e);
    SchemaProperties.MatchFixesType(PersonSchema, e);
    ClassifyRegistered(e, "Person");
  }

  /** Any Product entry without a name or without an image is counted as an error,
      whatever else it holds. */
  lemma ProductWithoutImageFails(e: Json)
    requires e.JObj? && "@type" in e.fields && e.fields["@type"] == JStr("Product")
    requires "name" !in e.fields || "image" !in e.fields
    ensures Classify(e) == Ok(Invalid)
  {
    SchemaProperties.ProductNeedsNameAndImage(e);
  }

  /** The sample Product, which has a name but no image, fails its shape. */
  lemma SampleProductFails(name: string)
    ensures Classify(SampleProduct(name)) == Ok(Invalid)
  {
    ProductWithoutImageFails(SampleProduct(name));
  }

  /** The counts of a success, an unknown type and an error, in this order. */
  lemma SampleCounts()
    ensures Accumulate([Ok(Valid("Person")), Ok(Unknown), Ok(Invalid)]) ==
              Ok(map[ErrorsKey := 1, UnknownKey := 1, "Person" := 1])
  {
    var fates: seq<Fate> := [Ok(Valid("Person")), Ok(Unknown), Ok(Invalid)];
    var c0 := map[ErrorsKey := 0, UnknownKey := 0];
    var c1 := map[ErrorsKey := 0, UnknownKey := 0, "Person" := 1];
    var c2 := map[ErrorsKey := 0, UnknownKey := 1, "Person" := 1];
    assert fates[..1][..0] == [];
    assert Accumulate(fates[..1]) == Step(Ok(c0), Ok(Valid("Person")), 0);
    assert Record(c0, Valid("Person")) == c1;
    assert fates[..2][..1] == fates[..1];
    assert Accumulate(fates[..2]) == Step(Ok(c1), Ok(Unknown), 1);
    assert Record(c1, Unknown) == c2;
    assert fates[..3] == fates;
    assert Record(c2, Invalid) == map[ErrorsKey := 1, UnknownKey := 1, "Person" := 1];
  }

  /** An entry whose `@type` is an unregistered string is unknown, whatever else
      it holds. */
  lemma UnregisteredIsUnknown(e: Json)
    requires e.JObj? && "@type" in e.fields && e.fields["@type"].JStr?
    requires e.fields["@type"].s !in AllSchemas
    ensures Classify(e) == Ok(Unknown)
  {
  }

  /** The sample entry that holds only an unregistered `@type` is unknown. */
  lemma SampleUnknownType(typeName: string)
    requires typeName !in AllSchemas
    ensures Classify(SampleTyped(typeName)) == Ok(Unknown)
  {
    UnregisteredIsUnknown(SampleTyped(typeName));
  }

  /** A run of a success, an unknown type and an error, in this order, counts one
      of each: with SamplePersonPasses, SampleUnknownType and SampleProductFails, the
      tally of a minimal Person, an unregistered type and a Product without image. */
  lemma SampleRun(a: Json, b: Json, c: Json)
    requires Classify(a) == Ok(Valid("Person"))
    requires Classify(b) == Ok(Unknown)
    requires Classify(c) == Ok(Invalid)
    ensures Tally([a, b, c]) == Ok(map[ErrorsKey := 1, UnknownKey := 1, "Person" := 1])
  {
    MapSeqThree(Classify, a, b, c);
    SampleCounts();
  }

  /** The three sample entries themselves: a minimal Person, an entry of the
      unregistered type `Unknown` and a Product without an image. */
  lemma SampleRunLiteral()
    ensures Tally([SamplePerson("Jane Doe"), SampleTyped("Unknown"), SampleProduct("Widget")]) ==
              Ok(map[ErrorsKey := 1, UnknownKey := 1, "Person" := 1])
  {
    var a, b, c := SamplePerson("Jane Doe"), SampleTyped("Unknown"), SampleProduct("Widget");
    SamplePersonPasses("Jane Doe");
    UnknownUnregistered();
    SampleUnknownType("Unknown");
    SampleProductFails("Widget");
    SampleRun(a, b, c);
  }

  /** `Unknown` is not one of the registered type names. */
  lemma UnknownUnregistered()
    ensures "Unknown" !in AllSchemas
  {
    SchemaProperties.RegisteredNames();
  }
}
