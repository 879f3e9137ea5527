/** The cache of validated egress schemas: updates replace, lookups hand out fresh copies. */
module EgressSchemaCache {
  import opened Sequences
  import opened EgressBits
  import opened EgressFeatures
  import opened EgressPacking
  import opened EgressDecoding

  /** A schema text that parsed, names a known specification and conforms to it. */
  datatype ValidSchema = ValidSchema(version: SchemaVersion, features: seq<Schema>)

  datatype EgressSchemaData = EgressSchemaData(version: SchemaVersion, features: seq<EgressFeature>)

  type CacheModel = map<string, ValidSchema>

  predicate KnownType(name: string) {
    name in {BOOLEAN, SIGNED, UNSIGNED, BUCKET, HISTOGRAM}
  }

  function SchemasOf(features: seq<EgressFeature>): (schemas: seq<Schema>)
    ensures |schemas| == |features|
  {
    seq(|features|, i requires 0 <= i < |features| => features[i].schema)
  }

  ghost predicate Unset(features: seq<EgressFeature>)
    reads features
  {
    forall i :: 0 <= i < |features| ==> features[i].value == None
  }

  class Cache {
    var versionFeatures: map<string, EgressSchemaData>

    constructor ()
      ensures Valid() && Model() == map[] && Owned() == {}
    {
      versionFeatures := map[];
    }

    ghost function Owned(): set<EgressFeature>
      reads this
    {
      set id, f | id in versionFeatures && f in versionFeatures[id].features :: f
    }

    /** No feature object inside the cache ever carries a value. */
    ghost predicate Valid()
      reads this, Owned()
    {
      forall f :: f in Owned() ==> f.value == None
    }

    ghost function Model(): CacheModel
      reads this
    {
      map id | id in versionFeatures ::
        ValidSchema(versionFeatures[id].version, SchemasOf(versionFeatures[id].features))
    }

    /** None stands for a text that fails to parse or to validate. */
    method Update(schema: Option<ValidSchema>, id: string) returns (ok: bool)
      requires Valid()
      modifies this
      ensures Valid()
      ensures ok <==> schema.Some? && forall f :: f in schema.value.features ==>
                f.name in {BOOLEAN, UNSIGNED, SIGNED, BUCKET, HISTOGRAM}
      ensures Model() == if ok then old(Model())[id := schema.value] else old(Model())
      ensures forall f :: f in Owned() ==> f in old(Owned()) || fresh(f)
    {
      if schema == None {
        return false;
      }
      var features;
      ok, features := ExtractFeatures(schema.value.features);
      if !ok {
        return;
      }
      assert SchemasOf(features) == schema.value.features;
      ghost var before := versionFeatures;
      versionFeatures := versionFeatures[id := EgressSchemaData(schema.value.version, features)];
      forall f | f in Owned() ensures f in old(Owned()) || fresh(f) {
        var i :| i in versionFeatures && f in versionFeatures[i].features;
        if i != id {
          assert i in before && f in before[i].features;
        }
      }
    }

    method ExtractFeatures(schemas: seq<Schema>) returns (ok: bool, features: seq<EgressFeature>)
      ensures ok <==> forall f :: f in schemas ==> KnownType(f.name)
      ensures ok ==> SchemasOf(features) == schemas
      ensures forall f :: f in features ==> fresh(f) && f.value == None
    {
      features := [];
      for i := 0 to |schemas|
        invariant |features| == i
        invariant forall k :: 0 <= k < i ==> KnownType(schemas[k].name) && features[k].schema == schemas[k]
        invariant forall f :: f in features ==> fresh(f) && f.value == None
      {
        if !KnownType(schemas[i].name) {
          return false, features;
        }
        var feature := new EgressFeature(schemas[i]);
        features := features + [feature];
      }
      ok := true;
    }

    /** Copies of the cached features: new, distinct, unset objects. */
    method Get(schemaId: string) returns (data: Option<EgressSchemaData>)
      requires Valid()
      ensures Valid()
      ensures data.Some? <==> schemaId in Model()
      ensures data.Some? ==>
                && data.value.version == Model()[schemaId].version
                && SchemasOf(data.value.features) == Model()[schemaId].features
                && Unset(data.value.features)
                && NoDuplicates(data.value.features)
                && fresh(data.value.features)
    {
      if schemaId !in versionFeatures {
        return None;
      }
      var cached := versionFeatures[schemaId].features;
      var copies: seq<EgressFeature> := [];
      for i := 0 to |cached|
        invariant |copies| == i
        invariant forall k :: 0 <= k < i ==> copies[k].schema == cached[k].schema && copies[k].value == None
        invariant NoDuplicates(copies) && fresh(copies)
      {
        var copy := cached[i].Copy();
        copies := copies + [copy];
      }
      assert SchemasOf(copies) == SchemasOf(cached);
      data := Some(EgressSchemaData(versionFeatures[schemaId].version, copies));
    }
  }

  // ---------- one request's use of a copy ----------

  /** As many objects as features, each of its feature's type. */
  predicate ItemsFit(items: seq<Item>, schemas: seq<Schema>) {
    && |items| == |schemas|
    && forall k :: 0 <= k < |items| ==> items[k].Object? && items[k].name == schemas[k].name
  }

  /** Sets every feature's value; stops at the first that does not fit its schema. */
  method PopulateValuesForEgressFeatures(items: seq<Item>, features: seq<EgressFeature>) returns (ok: bool)
    requires NoDuplicates(features)
    modifies features
    ensures ok <==> ItemsFit(items, SchemasOf(features))
    ensures ok ==> forall k :: 0 <= k < |items| ==> features[k].value == Some(items[k].value)
  {
    if |items| != |features| {
      return false;
    }
    for i := 0 to |items|
      invariant forall k :: 0 <= k < i ==>
        items[k].Object? && items[k].name == features[k].schema.name && features[k].value == Some(items[k].value)
    {
      if items[i].NotAnObject? {
        return false;
      }
      var fits := features[i].SetValue(items[i]);
      if !fits {
        return false;
      }
    }
    return true;
  }

  function ValuesIn(items: seq<Item>): (values: seq<Json>)
    ensures |values| == |items|
  {
    seq(|items|, i requires 0 <= i < |items| => if items[i].Object? then items[i].value else OtherJson)
  }

  predicate InLimit(schema: ValidSchema, egressBitLimit: EgressBitLimit) {
    0 < TotalSize(SchemaSizes(schema.features)) <= egressBitLimit
  }

  /** The bytes carry these values under this schema: packed bits, and the schema's version in the header. */
  ghost predicate Carries(schema: ValidSchema, values: seq<Json>, bytes: seq<bv8>) {
    && |values| == |schema.features|
    && |bytes| == SizeInBytes(TotalSize(SchemaSizes(schema.features))) + 1
    && (forall s :: s in SerializedValues(schema.features, values) ==> s.Bits?)
    && Holds(bytes[..|bytes| - 1], Stream(BitsIn(SerializedValues(schema.features, values))))
    && bytes[|bytes| - 1] == GetEgressVectorHeader(schema.version)
  }

  /** Every feature has a place for its value. */
  ghost predicate AllAccepted(schemas: seq<Schema>, values: seq<Json>) {
    |values| == |schemas| && forall i :: 0 <= i < |schemas| ==> Accepts(schemas[i], values[i])
  }

  /** Unless an undefined conversion is met before any error, an error is met exactly if some value has no place. */
  lemma ErrorIffNotAccepted(schemas: seq<Schema>, values: seq<Json>)
    requires |values| == |schemas| && StopsBeforeUndefined(SerializedValues(schemas, values))
    ensures Error in SerializedValues(schemas, values) <==> !AllAccepted(schemas, values)
  {
    var all := SerializedValues(schemas, values);
    forall i | 0 <= i < |schemas| ensures all[i].Bits? <==> Accepts(schemas[i], values[i]) {
      AcceptedIff(schemas[i], values[i]);
    }
    if !AllAccepted(schemas, values) {
      SomeError(all);
    }
  }

  /** Empty iff the schema needs no bits or too many, failed iff some value does not fit its feature, else the bytes. */
  ghost predicate SerializedAs(schema: ValidSchema, values: seq<Json>, egressBitLimit: EgressBitLimit, payload: Payload)
    requires |values| == |schema.features|
  {
    && (payload == Empty <==> !InLimit(schema, egressBitLimit))
    && (payload == Failed <==>
          InLimit(schema, egressBitLimit) && !AllAccepted(schema.features, values))
    && (payload.Payload? ==> Carries(schema, values, payload.bytes))
  }

  /** The request meets no conversion that the source language leaves undefined, and keeps the byte index in range. */
  ghost predicate Convertible(schema: ValidSchema, values: seq<Json>, egressBitLimit: EgressBitLimit)
    requires |values| == |schema.features|
  {
    && (InLimit(schema, egressBitLimit) ==> StopsBeforeUndefined(SerializedValues(schema.features, values)))
    && IndexStays(SerializedValues(schema.features, values), TotalSize(SchemaSizes(schema.features)), egressBitLimit)
  }

  /** What a request needs of the schema it names. */
  ghost predicate RequestDefined(
    model: CacheModel, schemaId: string, doc: Option<seq<Item>>, egressBitLimit: EgressBitLimit)
  {
    schemaId in model && doc.Some? && ItemsFit(doc.value, model[schemaId].features) ==>
      Convertible(model[schemaId], ValuesIn(doc.value), egressBitLimit)
  }

  /** The features of a private copy, once every one of them has its value. */
  method SerializeCopy(
    version: SchemaVersion, features: seq<EgressFeature>, ghost values: seq<Json>, egressBitLimit: EgressBitLimit)
    returns (payload: Payload)
    requires |values| == |features|
    requires forall k :: 0 <= k < |features| ==> features[k].value == Some(values[k])
    requires Convertible(ValidSchema(version, SchemasOf(features)), values, egressBitLimit)
    ensures SerializedAs(ValidSchema(version, SchemasOf(features)), values, egressBitLimit, payload)
  {
    ghost var schemas := SchemasOf(features);
    ghost var all := SerializedValues(schemas, values);
    assert Sizes(features) == SchemaSizes(schemas);
    payload := SerializeEgressFeatures(version, features, egressBitLimit, all);
    if payload != Empty {
      ErrorIffNotAccepted(schemas, values);
    }
    if payload.Payload? {
      assert forall s :: s in all ==> s.Bits?;
    }
  }

  /** The values of one request turned into bytes on private copies. doc is the parsed payload's feature list. */
  method GetSerializedEgressPayload(
    cache: Cache, schemaId: string, doc: Option<seq<Item>>, egressBitLimit: EgressBitLimit)
    returns (payload: Payload)
    requires cache.Valid()
    requires RequestDefined(cache.Model(), schemaId, doc, egressBitLimit)
    ensures cache.Valid()
    ensures if schemaId in cache.Model() && doc.Some? && ItemsFit(doc.value, cache.Model()[schemaId].features)
            then SerializedAs(cache.Model()[schemaId], ValuesIn(doc.value), egressBitLimit, payload)
            else payload == Failed
  {
    var data := cache.Get(schemaId);
    if data == None || doc == None {
      return Failed;
    }
    var ok := PopulateValuesForEgressFeatures(doc.value, data.value.features);
    if !ok {
      return Failed;
    }
    payload := SerializeCopy(data.value.version, data.value.features, ValuesIn(doc.value), egressBitLimit);
  }

  /** Whoever knows the schema reads the version and every value back, unless a zero-bit field swallowed it. */
  lemma CarriedValuesAreReadable(schema: ValidSchema, values: seq<Json>, bytes: seq<bv8>, i: nat)
    requires AllWellFormed(schema.features) && Carries(schema, values, bytes) && i < |values|
    ensures |DecodePayload(schema.features, bytes)| == |values|
    ensures NothingLost(schema.features[i], values[i]) <==>
              Reads(schema.features, bytes, i, MeaningOf(values[i], schema.features[i]))
    ensures (bytes[|bytes| - 1] >> 5) as bv32 == schema.version
    ensures BigEndian(bytes[..|bytes| - 1]) == Positional(BitsIn(SerializedValues(schema.features, values)), 0)
  {
    PayloadRoundTrip(schema.features, values, bytes, i);
    HeaderRoundTripIff(schema.version);
    PackedNumber(bytes[..|bytes| - 1], BitsIn(SerializedValues(schema.features, values)));
  }

  // ---------- any sequence of updates, lookups and changes to copies ----------

  datatype Operation =
    | DoUpdate(id: string, schema: Option<ValidSchema>)
    | DoGet(id: string)
    | DoSet(handle: nat, item: Item)

  /** The cache as a map of values, and the features handed out so far as values. */
  datatype Ledger = Ledger(cache: CacheModel, handed: seq<(Schema, Option<Json>)>)

  function Apply(ledger: Ledger, op: Operation): Ledger {
    match op
    case DoUpdate(id, schema) =>
      if schema.Some? && forall f :: f in schema.value.features ==> KnownType(f.name)
      then ledger.(cache := ledger.cache[id := schema.value])
      else ledger
    case DoGet(id) =>
      if id !in ledger.cache then ledger
      else
        var features := ledger.cache[id].features;
        ledger.(handed := ledger.handed + seq(|features|, i requires 0 <= i < |features| => (features[i], None)))
    case DoSet(handle, item) =>
      if handle < |ledger.handed| && item.Object? && item.name == ledger.handed[handle].0.name
      then ledger.(handed := ledger.handed[handle := (ledger.handed[handle].0, Some(item.value))])
      else ledger
  }

  function ApplyAll(ledger: Ledger, ops: seq<Operation>): Ledger {
    if ops == [] then ledger else Apply(ApplyAll(ledger, ops[..|ops| - 1]), ops[|ops| - 1])
  }

  ghost function View(handed: seq<EgressFeature>): seq<(Schema, Option<Json>)>
    reads handed
  {
    seq(|handed|, i requires 0 <= i < |handed| reads handed => (handed[i].schema, handed[i].value))
  }

  /** The objects behave like the ledger: what callers do to their copies reaches neither the cache nor other copies. */
  ghost predicate Represents(cache: Cache, handed: seq<EgressFeature>, ledger: Ledger)
    reads cache, cache.Owned(), handed
  {
    && cache.Valid()
    && cache.Model() == ledger.cache
    && View(handed) == ledger.handed
    && NoDuplicates(handed)
    && forall f :: f in handed ==> f !in cache.Owned()
  }

  method Perform(cache: Cache, handed: seq<EgressFeature>, op: Operation, ghost ledger: Ledger)
    returns (handed': seq<EgressFeature>)
    requires Represents(cache, handed, ledger)
    modifies cache, handed
    ensures Represents(cache, handed', Apply(ledger, op))
    ensures forall f :: f in handed' ==> f in handed || fresh(f)
  {
    handed' := handed;
    match op {
      case DoUpdate(id, schema) =>
        var _ := cache.Update(schema, id);
      case DoGet(id) =>
        var data := cache.Get(id);
        if data.Some? {
          handed' := handed + data.value.features;
        }
      case DoSet(handle, item) =>
        if handle < |handed| && item.Object? {
          var _ := handed[handle].SetValue(item);
        }
    }
  }

  /** Over any sequence of operations a lookup yields the last schema validated for its id, failed updates change
      nothing, and every handed-out feature shows exactly the value its own holder set. */
  method Session(ops: seq<Operation>) returns (cache: Cache, handed: seq<EgressFeature>)
    ensures fresh(cache) && fresh(handed)
    ensures Represents(cache, handed, ApplyAll(Ledger(map[], []), ops))
  {
    cache := new Cache();
    handed := [];
    for i := 0 to |ops|
      invariant fresh(cache)
      invariant forall k :: 0 <= k < |handed| ==> fresh(handed[k])
      invariant Represents(cache, handed, ApplyAll(Ledger(map[], []), ops[..i]))
    {
      assert ops[..i + 1][..i] == ops[..i];
      handed := Perform(cache, handed, ops[i], ApplyAll(Ledger(map[], []), ops[..i]));
      assert forall k :: 0 <= k < |handed| ==> handed[k] in handed;
    }
    assert ops[..|ops|] == ops;
  }

  /** The schema is valid, and all its feature types are known. */
  ghost predicate ValidUpdate(op: Operation) {
    op.DoUpdate? && op.schema.Some? &&
    forall f :: f in op.schema.value.features ==> f.name in {BOOLEAN, UNSIGNED, SIGNED, BUCKET, HISTOGRAM}
  }

  /** What the ledger holds for an id: the schema of the last successful update of that id, whatever came after. */
  lemma {:induction false} LastValidUpdateWins(before: Ledger, ops: seq<Operation>, k: nat)
    requires k < |ops| && ValidUpdate(ops[k])
    requires forall j :: k < j < |ops| && ops[j].DoUpdate? && ops[j].id == ops[k].id ==> !ValidUpdate(ops[j])
    ensures ops[k].id in ApplyAll(before, ops).cache
    ensures ApplyAll(before, ops).cache[ops[k].id] == ops[k].schema.value
    decreases |ops|
  {
    if k < |ops| - 1 {
      LastValidUpdateWins(before, ops[..|ops| - 1], k);
    }
  }

  /** An id maps to nothing new without a successful update of it. */
  lemma {:induction false} NoUpdateNoChange(before: Ledger, ops: seq<Operation>, id: string)
    requires forall op :: op in ops && op.DoUpdate? && op.id == id ==> !ValidUpdate(op)
    ensures id in ApplyAll(before, ops).cache <==> id in before.cache
    ensures id in before.cache ==> ApplyAll(before, ops).cache[id] == before.cache[id]
    decreases |ops|
  {
    if ops != [] {
      NoUpdateNoChange(before, ops[..|ops| - 1], id);
      assert ops[|ops| - 1] in ops;
    }
  }

  /** The operation sets the feature behind a handle to an item of the feature's own type. */
  predicate Sets(op: Operation, handle: nat, featureType: string) {
    op.DoSet? && op.handle == handle && op.item.Object? && op.item.name == featureType
  }

  /** Of all that is tried on a handle, the last item of the feature's own type counts. */
  lemma {:induction false} LastMatchingSetWins(before: Ledger, ops: seq<Operation>, handle: nat, k: nat)
    requires handle < |before.handed| && k < |ops| && Sets(ops[k], handle, before.handed[handle].0.name)
    requires forall j :: k < j < |ops| ==> !Sets(ops[j], handle, before.handed[handle].0.name)
    ensures handle < |ApplyAll(before, ops).handed|
    ensures ApplyAll(before, ops).handed[handle] == (before.handed[handle].0, Some(ops[k].item.value))
    decreases |ops|
  {
    var front := ops[..|ops| - 1];
    if k < |front| {
      LastMatchingSetWins(before, front, handle, k);
    } else {
      SchemaStays(before, front, handle);
    }
  }

  lemma {:induction false} SchemaStays(before: Ledger, ops: seq<Operation>, handle: nat)
    requires handle < |before.handed|
    ensures handle < |ApplyAll(before, ops).handed|
    ensures ApplyAll(before, ops).handed[handle].0 == before.handed[handle].0
    decreases |ops|
  {
    if ops != [] {
      SchemaStays(before, ops[..|ops| - 1], handle);
    }
  }

  /** The schema a feature was handed out with, its value, and both unset at first: what a lookup hands out. */
  lemma LookupHandsOutUnset(before: Ledger, id: string)
    ensures var after := Apply(before, DoGet(id));
      && after.cache == before.cache && before.handed <= after.handed
      && |after.handed| == |before.handed| + (if id in before.cache then |before.cache[id].features| else 0)
      && forall i :: |before.handed| <= i < |after.handed| ==>
           after.handed[i] == (before.cache[id].features[i - |before.handed|], None)
  {
  }

  /** The value of a handed-out feature: what was set through that handle last, whatever else happened. */
  lemma {:induction false} OthersDoNotTouchAHandle(before: Ledger, ops: seq<Operation>, handle: nat)
    requires handle < |before.handed|
    requires forall op :: op in ops && op.DoSet? ==> op.handle != handle
    ensures handle < |ApplyAll(before, ops).handed|
    ensures ApplyAll(before, ops).handed[handle] == before.handed[handle]
    decreases |ops|
  {
    if ops != [] {
      OthersDoNotTouchAHandle(before, ops[..|ops| - 1], handle);
      assert ops[|ops| - 1] in ops;
    }
  }
}
