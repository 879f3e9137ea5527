/** SerializeEgressFeatures: variable-width features packed across byte boundaries, last byte first, plus a header. */
module EgressPacking {
  import opened Sequences
  import opened EgressBits
  import opened EgressFeatures

  // ---------- bits of bytes ----------

  function Mask(p: nat): bv8
    requires p < 8
  {
    match p
    case 0 => 1
    case 1 => 2
    case 2 => 4
    case 3 => 8
    case 4 => 16
    case 5 => 32
    case 6 => 64
    case _ => 128
  }

  predicate GetBit(b: bv8, p: nat)
    requires p < 8
  {
    b & Mask(p) != 0
  }

  lemma SetBitEffect(b: bv8, p: nat, q: nat)
    requires p < 8 && q < 8
    ensures GetBit(b | Mask(p), q) == (p == q || GetBit(b, q))
  {
  }

  /** Bit k of a byte vector, counted from the low end of the last byte. */
  predicate BitAt(bytes: seq<bv8>, k: nat)
    requires k < 8 * |bytes|
  {
    GetBit(bytes[|bytes| - 1 - k / 8], k % 8)
  }

  /** The bytes hold the stream, and zeros beyond it. */
  ghost predicate Holds(bytes: seq<bv8>, stream: seq<bool>) {
    && |stream| <= 8 * |bytes|
    && forall k: nat :: k < 8 * |bytes| ==> BitAt(bytes, k) == (k < |stream| && stream[k])
  }

  /** Where the next bit goes; a full byte is left only when another bit arrives. */
  ghost predicate Position(size: nat, idx: int, bitPosition: nat, written: nat) {
    && 0 <= idx < size
    && bitPosition <= 8
    && (bitPosition == 0 ==> written == 0)
    && written == 8 * (size - 1 - idx) + bitPosition
  }

  lemma HoldsOneMore(before: seq<bv8>, after: seq<bv8>, idx: nat, p: nat, stream: seq<bool>, bit: bool)
    requires Holds(before, stream) && |stream| < 8 * |before|
    requires idx == |before| - 1 - |stream| / 8 && p == |stream| % 8
    requires after == if bit then before[idx := before[idx] | Mask(p)] else before
    ensures Holds(after, stream + [bit])
  {
    hide Mask;
    forall k: nat | k < 8 * |after| ensures BitAt(after, k) == (k < |stream| + 1 && (stream + [bit])[k]) {
      SetBitEffect(before[idx], p, k % 8);
      assert BitAt(before, k) == (k < |stream| && stream[k]);
    }
  }

  /** The inner loop: one feature's bits, last one first. */
  method CopyFeature(
    bits: seq<bool>, bytesArray: array<bv8>, bytesArrayIdx: int, bitPosition: nat, ghost stream: seq<bool>)
    returns (idx: int, position: nat)
    requires Holds(bytesArray[..], stream)
    requires Position(bytesArray.Length, bytesArrayIdx, bitPosition, |stream|)
    requires |stream| + |bits| <= 8 * bytesArray.Length
    modifies bytesArray
    ensures Holds(bytesArray[..], stream + Reverse(bits))
    ensures Position(bytesArray.Length, idx, position, |stream| + |bits|)
  {
    hide Holds, Mask, Reverse;
    idx, position := bytesArrayIdx, bitPosition;
    ghost var written := stream;
    var it := |bits|;
    while it > 0
      invariant 0 <= it <= |bits|
      invariant written == stream + Reverse(bits)[..|bits| - it]
      invariant Holds(bytesArray[..], written)
      invariant Position(bytesArray.Length, idx, position, |written|)
    {
      it := it - 1;
      if position > 0 && position % 8 == 0 {
        position := 0;
        idx := idx - 1;
      }
      ghost var before := bytesArray[..];
      if bits[it] {
        bytesArray[idx] := bytesArray[idx] | Mask(position);
      }
      HoldsOneMore(before, bytesArray[..], idx, position, written, bits[it]);
      position := position + 1;
      written := written + [bits[it]];
    }
    assert Reverse(bits)[..|bits|] == Reverse(bits);
  }

  // ---------- the whole payload ----------

  /** The schema version in the upper three bits, the protocol (always 0) in the lower five. */
  function GetEgressVectorHeader(schemaVersion: bv32): bv8 {
    (((schemaVersion << 5) & 0xFF) as bv8) | 0
  }

  /** The versions that the schema language admits (section "schema" of the specification 1.0.0): three bits. */
  type SchemaVersion = version: bv32 | version <= 7

  /** A header tells the version exactly for the eight versions a schema may have. */
  lemma HeaderRoundTripIff(schemaVersion: bv32)
    ensures GetEgressVectorHeader(schemaVersion) & 0x1F == 0
    ensures ((GetEgressVectorHeader(schemaVersion) >> 5) as bv32 == schemaVersion) <==> schemaVersion <= 7
  {
  }

  /** All features' bits in the order they are written. */
  function Stream(features: seq<seq<bool>>): seq<bool> {
    if features == [] then [] else Reverse(features[0]) + Stream(features[1..])
  }

  /** The uint32 sum of the declared sizes. */
  function TotalSize(sizes: seq<nat>): nat {
    if sizes == [] then 0 else (TotalSize(sizes[..|sizes| - 1]) + sizes[|sizes| - 1]) % 0x1_0000_0000
  }

  /** The limit is an int, the flag's or the largest one. */
  type EgressBitLimit = limit: nat | limit < 0x8000_0000

  function SizeInBytes(totalSize: nat): nat {
    if totalSize % 8 != 0 then totalSize / 8 + 1 else totalSize / 8
  }

  function Sum(sizes: seq<nat>): nat {
    if sizes == [] then 0 else Sum(sizes[..|sizes| - 1]) + sizes[|sizes| - 1]
  }

  lemma Associates(a: seq<bool>, b: seq<bool>, c: seq<bool>)
    ensures a + (b + c) == (a + b) + c
  {
  }

  lemma {:induction false} StreamSnoc(features: seq<seq<bool>>, last: seq<bool>)
    ensures Stream(features + [last]) == Stream(features) + Reverse(last)
  {
    if features == [] {
      assert [last][1..] == [];
      assert Stream([last]) == Reverse(last) + [];
    } else {
      StreamSnoc(features[1..], last);
      assert (features + [last])[1..] == features[1..] + [last];
      var first, rest, back := Reverse(features[0]), Stream(features[1..]), Reverse(last);
      Associates(first, rest, back);
    }
  }

  // ---------- the outer loop ----------

  /** A feature object of a schema copy handed out by the cache: the value is set once per request. */
  class EgressFeature {
    const schema: Schema
    var value: Option<Json>

    constructor (schema: Schema)
      ensures this.schema == schema && value == None
    {
      this.schema, value := schema, None;
    }

    function Serialized(): Serialized
      reads this
    {
      Serialize(schema, value)
    }

    /** The type named in the payload must be the schema's. */
    method SetValue(item: Item) returns (ok: bool)
      requires item.Object?
      modifies this
      ensures ok <==> item.name == schema.name
      ensures value == if ok then Some(item.value) else old(value)
    {
      ok := item.name == schema.name;
      if ok {
        value := Some(item.value);
      }
    }

    /** A copy has the schema but not the value. */
    method Copy() returns (copy: EgressFeature)
      ensures fresh(copy) && copy.schema == schema && copy.value == None
    {
      copy := new EgressFeature(schema);
    }
  }

  datatype Payload = Empty | Failed | Payload(bytes: seq<bv8>)

  function Sizes(features: seq<EgressFeature>): (sizes: seq<nat>)
    ensures |sizes| == |features|
  {
    seq(|features|, i requires 0 <= i < |features| => SizeOf(features[i].schema))
  }

  function BitsIn(serialized: seq<Serialized>): seq<seq<bool>> {
    if serialized == [] then []
    else if serialized[0].Bits? then [serialized[0].bits] + BitsIn(serialized[1..])
    else BitsIn(serialized[1..])
  }

  lemma {:induction false} BitsInSnoc(serialized: seq<Serialized>, last: Serialized)
    ensures BitsIn(serialized + [last]) == BitsIn(serialized) + if last.Bits? then [last.bits] else []
  {
    if serialized == [] {
      assert [last][1..] == [];
    } else {
      BitsInSnoc(serialized[1..], last);
      assert (serialized + [last])[1..] == serialized[1..] + [last];
    }
  }

  /** Where the byte index is after so many bits: it moves on when a bit arrives for a full byte. */
  function IndexAfter(size: nat, written: nat): int {
    if written == 0 then size - 1 else size - 1 - (written - 1) / 8
  }

  ghost predicate AllBits(serialized: seq<Serialized>) {
    forall k :: 0 <= k < |serialized| ==> serialized[k].Bits?
  }

  /** Serialization stops at the first feature that does not serialize; up to there the byte index stays in range. */
  ghost predicate IndexInRange(all: seq<Serialized>, size: nat) {
    forall i: nat :: i <= |all| && AllBits(all[..i]) ==> IndexAfter(size, |Stream(BitsIn(all[..i]))|) >= 0
  }

  /** Bytes are reserved and written only for a size within the limit. */
  ghost predicate IndexStays(all: seq<Serialized>, totalSize: nat, egressBitLimit: EgressBitLimit) {
    0 < totalSize <= egressBitLimit ==> IndexInRange(all, SizeInBytes(totalSize))
  }

  lemma PrefixFits(all: seq<Serialized>, size: nat, i: nat)
    requires IndexInRange(all, size) && i <= |all| && size > 0
    requires forall k :: 0 <= k < i ==> all[k].Bits?
    ensures |Stream(BitsIn(all[..i]))| <= 8 * size
  {
    assert AllBits(all[..i]);
  }

  method SumSizes(features: seq<EgressFeature>) returns (totalSize: nat)
    ensures totalSize == TotalSize(Sizes(features))
  {
    totalSize := 0;
    for i := 0 to |features|
      invariant totalSize == TotalSize(Sizes(features)[..i])
    {
      totalSize := (totalSize + SizeOf(features[i].schema)) % 0x1_0000_0000;
      assert Sizes(features)[..i + 1][..i] == Sizes(features)[..i];
    }
    assert Sizes(features)[..|features|] == Sizes(features);
  }

  /** The first i features are in the bytes. */
  ghost predicate Packed(bytes: seq<bv8>, idx: int, position: nat, all: seq<Serialized>, i: nat)
    requires i <= |all|
  {
    && Holds(bytes, Stream(BitsIn(all[..i])))
    && Position(|bytes|, idx, position, |Stream(BitsIn(all[..i]))|)
  }

  /** What each feature serializes to. */
  ghost predicate SerializeTo(features: seq<EgressFeature>, all: seq<Serialized>)
    reads features
  {
    |all| == |features| && forall k :: 0 <= k < |all| ==> features[k].Serialized() == all[k]
  }

  /** The first i features serialize, and are in the bytes. */
  ghost predicate PackedSoFar(
    features: seq<EgressFeature>, all: seq<Serialized>, bytes: seq<bv8>, idx: int, position: nat, i: nat)
    reads features
  {
    && SerializeTo(features, all)
    && i <= |all|
    && (forall k :: 0 <= k < i ==> all[k].Bits?)
    && Packed(bytes, idx, position, all, i)
  }

  method PackNext(
    features: seq<EgressFeature>, i: nat, bytesArray: array<bv8>, bytesArrayIdx: int, bitPosition: nat,
    ghost all: seq<Serialized>)
    returns (ok: bool, idx: int, position: nat)
    requires i < |features| && PackedSoFar(features, all, bytesArray[..], bytesArrayIdx, bitPosition, i)
    requires bytesArray.Length > 0 && IndexInRange(all, bytesArray.Length)
    modifies bytesArray
    ensures |all| == |features| && ok == all[i].Bits?
    ensures ok ==> PackedSoFar(features, all, bytesArray[..], idx, position, i + 1)
  {
    hide Holds, Stream, BitsIn, IndexInRange;
    idx, position := bytesArrayIdx, bitPosition;
    var serialized := features[i].Serialized();
    ok := serialized.Bits?;
    if ok {
      WriteStep(all, i);
      PrefixFits(all, bytesArray.Length, i + 1);
      idx, position :=
        CopyFeature(serialized.bits, bytesArray, bytesArrayIdx, bitPosition, Stream(BitsIn(all[..i])));
    }
  }

  lemma PackedStart(bytes: seq<bv8>, all: seq<Serialized>)
    requires bytes != [] && Holds(bytes, [])
    ensures Packed(bytes, |bytes| - 1, 0, all, 0)
  {
  }

  lemma PackedEnd(bytes: seq<bv8>, idx: int, position: nat, all: seq<Serialized>)
    requires Packed(bytes, idx, position, all, |all|)
    ensures Holds(bytes, Stream(BitsIn(all)))
  {
    assert all[..|all|] == all;
  }

  /** The loop over the features; it stops at the first that does not serialize. */
  method PackAll(features: seq<EgressFeature>, bytesArray: array<bv8>, ghost all: seq<Serialized>) returns (ok: bool)
    requires bytesArray.Length > 0 && Holds(bytesArray[..], [])
    requires SerializeTo(features, all) && IndexInRange(all, bytesArray.Length)
    modifies bytesArray
    ensures ok <==> forall i :: 0 <= i < |all| ==> all[i].Bits?
    ensures ok ==> Holds(bytesArray[..], Stream(BitsIn(all)))
  {
    var idx, position := bytesArray.Length - 1, 0;
    PackedStart(bytesArray[..], all);
    for i := 0 to |features|
      invariant PackedSoFar(features, all, bytesArray[..], idx, position, i)
    {
      ok, idx, position := PackNext(features, i, bytesArray, idx, position, all);
      if !ok {
        return;
      }
    }
    PackedEnd(bytesArray[..], idx, position, all);
    ok := true;
  }

  /** Serialization stops at an error before it would reach an undefined conversion. */
  ghost predicate StopsBeforeUndefined(all: seq<Serialized>) {
    forall k :: 0 <= k < |all| && all[k] == Undefined ==> Error in all[..k]
  }

  lemma SomeError(all: seq<Serialized>)
    requires StopsBeforeUndefined(all) && !forall i :: 0 <= i < |all| ==> all[i].Bits?
    ensures Error in all
  {
    var i :| 0 <= i < |all| && !all[i].Bits?;
    if all[i] == Undefined {
      assert forall s :: s in all[..i] ==> s in all;
    }
  }

  /** Rounded up to whole bytes, in a uint32. */
  function SerializedSize(totalSize: nat): nat {
    if totalSize % 8 != 0 then (totalSize / 8 + 1) * 8 % 0x1_0000_0000 else totalSize
  }

  /** Up to the largest limit the rounding does not wrap. */
  lemma RoundedWithinLimit(totalSize: nat, egressBitLimit: EgressBitLimit)
    requires totalSize <= egressBitLimit
    ensures SerializedSize(totalSize) / 8 == SizeInBytes(totalSize)
    ensures totalSize > 0 ==> SizeInBytes(totalSize) > 0
  {
  }

  /** The packed bits in so many bytes, and the header. */
  method PackPayload(
    schemaVersion: bv32, features: seq<EgressFeature>, size: nat, ghost all: seq<Serialized>)
    returns (payload: Payload)
    requires size > 0 && SerializeTo(features, all) && IndexInRange(all, size)
    ensures payload == Failed <==> !forall i :: 0 <= i < |all| ==> all[i].Bits?
    ensures payload != Failed ==>
              && payload.Payload? && |payload.bytes| == size + 1
              && Holds(payload.bytes[..size], Stream(BitsIn(all)))
              && payload.bytes[size] == GetEgressVectorHeader(schemaVersion)
  {
    var bytesArray := new bv8[size](_ => 0);
    var ok := PackAll(features, bytesArray, all);
    if !ok {
      return Failed;
    }
    payload := Payload(bytesArray[..] + [GetEgressVectorHeader(schemaVersion)]);
    assert payload.bytes[..size] == bytesArray[..];
  }

  /** Nothing for an empty or oversized payload, an error if a feature does not serialize, the packed bits and the
      header otherwise. The ghost argument names what the features serialize to. */
  method SerializeEgressFeatures(
    schemaVersion: bv32, features: seq<EgressFeature>, egressBitLimit: EgressBitLimit, ghost all: seq<Serialized>)
    returns (payload: Payload)
    requires SerializeTo(features, all)
    requires IndexStays(all, TotalSize(Sizes(features)), egressBitLimit)
    requires 0 < TotalSize(Sizes(features)) <= egressBitLimit ==> StopsBeforeUndefined(all)
    ensures payload == Empty <==>
              TotalSize(Sizes(features)) == 0 || TotalSize(Sizes(features)) > egressBitLimit
    ensures payload == Failed <==> payload != Empty && Error in all
    ensures payload.Payload? ==>
              && |payload.bytes| == SizeInBytes(TotalSize(Sizes(features))) + 1
              && Holds(payload.bytes[..|payload.bytes| - 1], Stream(BitsIn(all)))
              && payload.bytes[|payload.bytes| - 1] == GetEgressVectorHeader(schemaVersion)
  {
    var totalSize := SumSizes(features);
    if totalSize == 0 || totalSize > egressBitLimit {
      return Empty;
    }
    RoundedWithinLimit(totalSize, egressBitLimit);
    hide SerializedSize, SizeInBytes, TotalSize, Holds;
    payload := PackPayload(schemaVersion, features, SerializedSize(totalSize) / 8, all);
    if payload == Failed {
      SomeError(all);
    }
  }

  lemma WriteStep(all: seq<Serialized>, i: nat)
    requires i < |all| && all[i].Bits?
    ensures Stream(BitsIn(all[..i + 1])) == Stream(BitsIn(all[..i])) + Reverse(all[i].bits)
  {
    assert all[..i + 1] == all[..i] + [all[i]];
    BitsInSnoc(all[..i], all[i]);
    StreamSnoc(BitsIn(all[..i]), all[i].bits);
  }
}
