/** What a packed egress payload means: the number its bytes spell, and a decoder that gets every feature back. */
module EgressDecoding {
  import opened Sequences
  import opened EgressBits
  import opened EgressFeatures
  import opened EgressPacking

  // ---------- the payload as a number ----------

  /** The bytes read as one number, first byte most significant. */
  function BigEndian(bytes: seq<bv8>): nat {
    if bytes == [] then 0 else 256 * BigEndian(bytes[..|bytes| - 1]) + bytes[|bytes| - 1] as nat
  }

  function BitStream(bytes: seq<bv8>): (stream: seq<bool>)
    ensures |stream| == 8 * |bytes|
  {
    seq(8 * |bytes|, k requires 0 <= k < 8 * |bytes| => BitAt(bytes, k))
  }

  function LowBits(b: bv8): (bits: seq<bool>)
    ensures |bits| == 8
  {
    seq(8, p requires 0 <= p < 8 => GetBit(b, p))
  }

  lemma ByteAsNat(b: bv8)
    ensures b as nat ==
              Bit(GetBit(b, 0)) + 2 * Bit(GetBit(b, 1)) + 4 * Bit(GetBit(b, 2)) + 8 * Bit(GetBit(b, 3)) +
              16 * Bit(GetBit(b, 4)) + 32 * Bit(GetBit(b, 5)) + 64 * Bit(GetBit(b, 6)) + 128 * Bit(GetBit(b, 7))
  {
  }

  lemma StreamValueOfEight(s: seq<bool>)
    requires |s| == 8
    ensures StreamValue(s) ==
              Bit(s[0]) + 2 * Bit(s[1]) + 4 * Bit(s[2]) + 8 * Bit(s[3]) +
              16 * Bit(s[4]) + 32 * Bit(s[5]) + 64 * Bit(s[6]) + 128 * Bit(s[7])
  {
    StreamValueOfFour(s[4..]);
    assert StreamValue(s) == Bit(s[0]) + 2 * StreamValue(s[1..]);
    assert s[1..][1..] == s[2..] && s[2..][1..] == s[3..] && s[3..][1..] == s[4..];
    assert StreamValue(s[1..]) == Bit(s[1]) + 2 * StreamValue(s[2..]);
    assert StreamValue(s[2..]) == Bit(s[2]) + 2 * StreamValue(s[3..]);
    assert StreamValue(s[3..]) == Bit(s[3]) + 2 * StreamValue(s[4..]);
  }

  lemma StreamValueOfFour(s: seq<bool>)
    requires |s| == 4
    ensures StreamValue(s) == Bit(s[0]) + 2 * Bit(s[1]) + 4 * Bit(s[2]) + 8 * Bit(s[3])
  {
    assert s[1..][1..] == s[2..] && s[2..][1..] == s[3..] && s[3..][1..] == [];
    assert StreamValue(s[1..]) == Bit(s[1]) + 2 * StreamValue(s[2..]);
    assert StreamValue(s[2..]) == Bit(s[2]) + 2 * StreamValue(s[3..]);
  }

  lemma BitStreamSnoc(bytes: seq<bv8>, last: bv8)
    ensures BitStream(bytes + [last]) == LowBits(last) + BitStream(bytes)
  {
    var all := bytes + [last];
    forall k: nat | k < 8 * |all| ensures BitStream(all)[k] == (LowBits(last) + BitStream(bytes))[k] {
      if k < 8 {
        assert BitStream(all)[k] == GetBit(last, k);
      } else {
        BitBefore(bytes, last, k);
        assert (LowBits(last) + BitStream(bytes))[k] == BitStream(bytes)[k - 8];
      }
    }
  }

  lemma BitBefore(bytes: seq<bv8>, last: bv8, k: nat)
    requires 8 <= k < 8 * |bytes| + 8
    ensures BitAt(bytes + [last], k) == BitAt(bytes, k - 8)
  {
    assert (k - 8) / 8 == k / 8 - 1 && (k - 8) % 8 == k % 8;
  }

  lemma LastByteFirst(b: bv8, rest: seq<bool>)
    ensures StreamValue(LowBits(b) + rest) == b as nat + 256 * StreamValue(rest)
  {
    StreamValueConcat(LowBits(b), rest);
    ValueOfByte(b);
    Pow2Eight();
  }

  lemma ValueOfByte(b: bv8)
    ensures StreamValue(LowBits(b)) == b as nat
  {
    LowBitsAre(b);
    StreamValueOfEight(LowBits(b));
    ByteAsNat(b);
  }

  lemma LowBitsAre(b: bv8)
    ensures forall p :: 0 <= p < 8 ==> LowBits(b)[p] == GetBit(b, p)
  {
  }

  lemma Pow2Eight()
    ensures Pow2(8) == 256
  {
    assert Pow2(4) == 16;
  }

  /** The big-endian number is the value of the stream that starts at the low end of the last byte. */
  lemma {:induction false} BigEndianIsStreamValue(bytes: seq<bv8>)
    ensures BigEndian(bytes) == StreamValue(BitStream(bytes))
  {
    if bytes != [] {
      var front, last := bytes[..|bytes| - 1], bytes[|bytes| - 1];
      BigEndianIsStreamValue(front);
      assert bytes == front + [last];
      BitStreamSnoc(front, last);
      LastByteFirst(last, BitStream(front));
    }
  }

  /** Each feature's number times two to the sizes of the features before it. */
  function Positional(features: seq<seq<bool>>, before: nat): nat {
    if features == [] then 0
    else Value(features[0]) * Pow2(before) + Positional(features[1..], before + |features[0]|)
  }

  lemma {:induction false} Pow2Add(a: nat, b: nat)
    ensures Pow2(a + b) == Pow2(a) * Pow2(b)
  {
    if a > 0 {
      Pow2Add(a - 1, b);
      assert 2 * (Pow2(a - 1) * Pow2(b)) == (2 * Pow2(a - 1)) * Pow2(b);
    }
  }

  lemma {:induction false} PositionalIsStreamValue(features: seq<seq<bool>>, before: nat)
    ensures Positional(features, before) == Pow2(before) * StreamValue(Stream(features))
  {
    if features != [] {
      var width, rest := |features[0]|, StreamValue(Stream(features[1..]));
      PositionalIsStreamValue(features[1..], before + width);
      StreamValueOfReverse(features[0]);
      StreamValueConcat(Reverse(features[0]), Stream(features[1..]));
      Pow2Add(before, width);
      Distribute(Pow2(before), Pow2(width), Value(features[0]), rest);
    }
  }

  lemma Distribute(p: nat, q: nat, v: nat, rest: nat)
    ensures v * p + (p * q) * rest == p * (v + q * rest)
  {
  }

  lemma {:induction false} ZerosAddNothing(n: nat)
    ensures StreamValue(Zeros(n)) == 0
  {
    if n > 0 {
      ZerosAddNothing(n - 1);
      assert Zeros(n)[1..] == Zeros(n - 1);
    }
  }

  lemma PaddingAddsNothing(stream: seq<bool>, n: nat)
    ensures StreamValue(stream + Zeros(n)) == StreamValue(stream)
  {
    StreamValueConcat(stream, Zeros(n));
    ZerosAddNothing(n);
  }

  lemma HeldStream(bytes: seq<bv8>, stream: seq<bool>)
    requires Holds(bytes, stream)
    ensures BitStream(bytes) == stream + Zeros(8 * |bytes| - |stream|)
  {
  }

  lemma PositionalFromZero(features: seq<seq<bool>>)
    ensures Positional(features, 0) == StreamValue(Stream(features))
  {
    PositionalIsStreamValue(features, 0);
    assert Pow2(0) == 1;
  }

  /** The payload is the positional encoding of its features; the padding contributes nothing. */
  lemma PackedNumber(bytes: seq<bv8>, features: seq<seq<bool>>)
    requires Holds(bytes, Stream(features))
    ensures BigEndian(bytes) == Positional(features, 0)
  {
    BigEndianIsStreamValue(bytes);
    HeldStream(bytes, Stream(features));
    PaddingAddsNothing(Stream(features), 8 * |bytes| - |Stream(features)|);
    PositionalFromZero(features);
  }

  // ---------- the decoder ----------

  function TakeFeatures(sizes: seq<nat>, stream: seq<bool>): seq<seq<bool>> {
    if sizes == [] || sizes[0] > |stream| then []
    else [Reverse(stream[..sizes[0]])] + TakeFeatures(sizes[1..], stream[sizes[0]..])
  }

  ghost predicate Widths(features: seq<seq<bool>>, sizes: seq<nat>) {
    |features| == |sizes| && forall i :: 0 <= i < |sizes| ==> |features[i]| == sizes[i]
  }

  lemma {:induction false} TakeFeaturesInverts(features: seq<seq<bool>>, sizes: seq<nat>, rest: seq<bool>)
    requires Widths(features, sizes)
    ensures TakeFeatures(sizes, Stream(features) + rest) == features
  {
    if sizes != [] {
      var first, tail := Reverse(features[0]), Stream(features[1..]) + rest;
      assert Stream(features) + rest == first + tail;
      assert (first + tail)[..sizes[0]] == first && (first + tail)[sizes[0]..] == tail;
      ReverseTwice(features[0]);
      TakeFeaturesInverts(features[1..], sizes[1..], rest);
    }
  }

  function SchemaSizes(schemas: seq<Schema>): seq<nat> {
    seq(|schemas|, i requires 0 <= i < |schemas| => SizeOf(schemas[i]))
  }

  function SerializedValues(schemas: seq<Schema>, values: seq<Json>): seq<Serialized>
    requires |schemas| == |values|
  {
    seq(|schemas|, i requires 0 <= i < |schemas| => SerializeValue(schemas[i], values[i]))
  }

  ghost predicate AllWellFormed(schemas: seq<Schema>) {
    forall i :: 0 <= i < |schemas| ==> WellFormed(schemas[i])
  }

  lemma {:induction false} BitsInAll(serialized: seq<Serialized>)
    requires forall s :: s in serialized ==> s.Bits?
    ensures |BitsIn(serialized)| == |serialized|
    ensures forall i :: 0 <= i < |serialized| ==> BitsIn(serialized)[i] == serialized[i].bits
  {
    if serialized != [] {
      BitsInAll(serialized[1..]);
    }
  }

  /** The features of a payload, from its bytes and the schema alone. */
  function DecodePayload(schemas: seq<Schema>, payload: seq<bv8>): seq<seq<bool>>
    requires payload != []
  {
    TakeFeatures(SchemaSizes(schemas), BitStream(payload[..|payload| - 1]))
  }

  /** What a well-formed schema's values serialize to has the declared widths. */
  lemma SerializedWidths(schemas: seq<Schema>, values: seq<Json>)
    requires |schemas| == |values| && AllWellFormed(schemas)
    requires forall s :: s in SerializedValues(schemas, values) ==> s.Bits?
    ensures Widths(BitsIn(SerializedValues(schemas, values)), SchemaSizes(schemas))
    ensures forall k :: 0 <= k < |schemas| ==>
              SerializeValue(schemas[k], values[k]) == Bits(BitsIn(SerializedValues(schemas, values))[k])
  {
    var serialized := SerializedValues(schemas, values);
    BitsInAll(serialized);
    forall k | 0 <= k < |schemas|
      ensures |BitsIn(serialized)[k]| == SizeOf(schemas[k])
      ensures SerializeValue(schemas[k], values[k]) == Bits(BitsIn(serialized)[k])
    {
      assert schemas[k] in schemas && serialized[k] in serialized;
      SerializedLength(schemas[k], Some(values[k]));
    }
  }

  lemma DecodedFeatures(schemas: seq<Schema>, features: seq<seq<bool>>, payload: seq<bv8>)
    requires payload != [] && Widths(features, SchemaSizes(schemas))
    requires Holds(payload[..|payload| - 1], Stream(features))
    ensures DecodePayload(schemas, payload) == features
  {
    HeldStream(payload[..|payload| - 1], Stream(features));
    TakeFeaturesInverts(features, SchemaSizes(schemas), Zeros(8 * (|payload| - 1) - |Stream(features)|));
  }

  /** Feature i of the payload, taken from its bytes and the schema, has this meaning. */
  predicate Reads(schemas: seq<Schema>, payload: seq<bv8>, i: nat, meaning: Meaning)
    requires payload != [] && i < |schemas|
  {
    var features := DecodePayload(schemas, payload);
    && i < |features|
    && WellFormed(schemas[i])
    && |features[i]| == SizeOf(schemas[i])
    && Decode(schemas[i], features[i]) == meaning
  }

  /** Decoding a payload gives back the meaning of every feature's value that no zero-bit field swallows. */
  lemma PayloadRoundTrip(schemas: seq<Schema>, values: seq<Json>, payload: seq<bv8>, i: nat)
    requires |schemas| == |values| && i < |schemas|
    requires AllWellFormed(schemas)
    requires forall s :: s in SerializedValues(schemas, values) ==> s.Bits?
    requires payload != [] &&
             Holds(payload[..|payload| - 1], Stream(BitsIn(SerializedValues(schemas, values))))
    ensures |DecodePayload(schemas, payload)| == |schemas|
    ensures |DecodePayload(schemas, payload)[i]| == SizeOf(schemas[i])
    ensures NothingLost(schemas[i], values[i]) <==> Reads(schemas, payload, i, MeaningOf(values[i], schemas[i]))
  {
    SerializedWidths(schemas, values);
    DecodedFeatures(schemas, BitsIn(SerializedValues(schemas, values)), payload);
    assert schemas[i] in schemas;
    FeatureRoundTrip(schemas[i], values[i]);
  }

  /** Two payloads of one schema with equal bytes say the same. */
  lemma PayloadInjective(schemas: seq<Schema>, a: seq<Json>, b: seq<Json>, payload: seq<bv8>, i: nat)
    requires |schemas| == |a| == |b| && i < |schemas|
    requires AllWellFormed(schemas) && NothingLost(schemas[i], a[i]) && NothingLost(schemas[i], b[i])
    requires forall s :: s in SerializedValues(schemas, a) + SerializedValues(schemas, b) ==> s.Bits?
    requires payload != []
    requires Holds(payload[..|payload| - 1], Stream(BitsIn(SerializedValues(schemas, a))))
    requires Holds(payload[..|payload| - 1], Stream(BitsIn(SerializedValues(schemas, b))))
    ensures MeaningOf(a[i], schemas[i]) == MeaningOf(b[i], schemas[i])
  {
    assert forall s :: s in SerializedValues(schemas, a) ==>
      s in SerializedValues(schemas, a) + SerializedValues(schemas, b);
    assert forall s :: s in SerializedValues(schemas, b) ==>
      s in SerializedValues(schemas, a) + SerializedValues(schemas, b);
    PayloadRoundTrip(schemas, a, payload, i);
    PayloadRoundTrip(schemas, b, payload, i);
  }

  // ---------- when the bytes suffice ----------

  lemma {:induction false} StreamLength(features: seq<seq<bool>>, sizes: seq<nat>)
    requires Widths(features, sizes)
    ensures |Stream(features)| == Sum(sizes)
    decreases |features|
  {
    if features != [] {
      var n := |features| - 1;
      StreamLength(features[..n], sizes[..n]);
      assert features == features[..n] + [features[n]];
      StreamSnoc(features[..n], features[n]);
    }
  }

  lemma {:induction false} TotalSizeIsSum(sizes: seq<nat>)
    ensures TotalSize(sizes) == Sum(sizes) % 0x1_0000_0000
  {
    if sizes != [] {
      TotalSizeIsSum(sizes[..|sizes| - 1]);
      ModAdd(Sum(sizes[..|sizes| - 1]), sizes[|sizes| - 1]);
    }
  }

  lemma ModAdd(a: nat, b: nat)
    ensures (a % 0x1_0000_0000 + b) % 0x1_0000_0000 == (a + b) % 0x1_0000_0000
  {
  }

  lemma {:induction false} SumOfPrefix(sizes: seq<nat>, i: nat)
    requires i <= |sizes|
    ensures Sum(sizes[..i]) <= Sum(sizes)
    decreases |sizes|
  {
    if i < |sizes| {
      var front := sizes[..|sizes| - 1];
      SumOfPrefix(front, i);
      assert front[..i] == sizes[..i];
    } else {
      assert sizes[..i] == sizes;
    }
  }

  /** As many bits are written for the first features as their schemas declare. */
  lemma WrittenSoFar(schemas: seq<Schema>, values: seq<Json>, i: nat)
    requires |schemas| == |values| && i <= |schemas| && AllWellFormed(schemas)
    requires AllBits(SerializedValues(schemas, values)[..i])
    ensures |Stream(BitsIn(SerializedValues(schemas, values)[..i]))| == Sum(SchemaSizes(schemas)[..i])
  {
    var first := SerializedValues(schemas[..i], values[..i]);
    assert first == SerializedValues(schemas, values)[..i];
    assert SchemaSizes(schemas[..i]) == SchemaSizes(schemas)[..i];
    SerializedWidths(schemas[..i], values[..i]);
    StreamLength(BitsIn(first), SchemaSizes(schemas[..i]));
  }

  /** The features up to number i serialize, and need more bits than are reserved for the wrapped sum. */
  ghost predicate Overruns(schemas: seq<Schema>, values: seq<Json>, i: nat)
    requires |schemas| == |values|
  {
    && i <= |schemas|
    && AllBits(SerializedValues(schemas, values)[..i])
    && Sum(SchemaSizes(schemas)[..i]) > 8 * SizeInBytes(Sum(SchemaSizes(schemas)) % 0x1_0000_0000)
  }

  /** The byte index leaves its range exactly if the wrapped sum of the sizes is within the limit and the features
      before the first that does not serialize overrun it. */
  lemma IndexLeavesIff(schemas: seq<Schema>, values: seq<Json>, egressBitLimit: EgressBitLimit)
    requires |schemas| == |values| && AllWellFormed(schemas)
    ensures !IndexStays(SerializedValues(schemas, values), TotalSize(SchemaSizes(schemas)), egressBitLimit) <==>
              && 0 < Sum(SchemaSizes(schemas)) % 0x1_0000_0000 <= egressBitLimit
              && exists i: nat :: Overruns(schemas, values, i)
  {
    var all, sizes := SerializedValues(schemas, values), SchemaSizes(schemas);
    TotalSizeIsSum(sizes);
    var size := SizeInBytes(TotalSize(sizes));
    forall i: nat | i <= |all| && AllBits(all[..i])
      ensures size > 0 ==> (IndexAfter(size, |Stream(BitsIn(all[..i]))|) >= 0 <==> !Overruns(schemas, values, i))
    {
      WrittenSoFar(schemas, values, i);
      IndexAfterMeans(size, Sum(sizes[..i]));
    }
    assert TotalSize(sizes) > 0 ==> size > 0;
  }

  lemma IndexAfterMeans(size: nat, written: nat)
    ensures size > 0 ==> (IndexAfter(size, written) >= 0 <==> written <= 8 * size)
  {
  }

  /** When every value serializes: exactly if the declared sizes overflow their uint32 sum and what is left of it is
      within the limit. */
  lemma IndexLeavesIffSumOverflows(schemas: seq<Schema>, values: seq<Json>, egressBitLimit: EgressBitLimit)
    requires |schemas| == |values| && AllWellFormed(schemas) && AllBits(SerializedValues(schemas, values))
    ensures !IndexStays(SerializedValues(schemas, values), TotalSize(SchemaSizes(schemas)), egressBitLimit) <==>
              && Sum(SchemaSizes(schemas)) >= 0x1_0000_0000
              && 0 < Sum(SchemaSizes(schemas)) % 0x1_0000_0000 <= egressBitLimit
  {
    var all, sizes, n := SerializedValues(schemas, values), SchemaSizes(schemas), |schemas|;
    IndexLeavesIff(schemas, values, egressBitLimit);
    RoundedSizeSuffices(Sum(sizes));
    assert all[..n] == all && sizes[..n] == sizes;
    if Sum(sizes) >= 0x1_0000_0000 {
      assert Overruns(schemas, values, n);
    } else if i: nat :| Overruns(schemas, values, i) {
      SumOfPrefix(sizes, i);
      assert false;
    }
  }

  /** Whatever the values, sizes whose sum does not overflow keep the index in range; so do sizes outside the limit. */
  lemma SizesSuffice(schemas: seq<Schema>, values: seq<Json>, egressBitLimit: EgressBitLimit)
    requires |schemas| == |values| && AllWellFormed(schemas)
    requires var sum := Sum(SchemaSizes(schemas));
      sum < 0x1_0000_0000 || sum % 0x1_0000_0000 == 0 || sum % 0x1_0000_0000 > egressBitLimit
    ensures IndexStays(SerializedValues(schemas, values), TotalSize(SchemaSizes(schemas)), egressBitLimit)
  {
    var sizes := SchemaSizes(schemas);
    IndexLeavesIff(schemas, values, egressBitLimit);
    if Sum(sizes) < 0x1_0000_0000 {
      RoundedSizeSuffices(Sum(sizes));
      if i: nat :| Overruns(schemas, values, i) {
        SumOfPrefix(sizes, i);
        assert false;
      }
    }
  }

  lemma RoundedSizeSuffices(sum: nat)
    ensures sum <= 8 * SizeInBytes(sum % 0x1_0000_0000) <==> sum < 0x1_0000_0000
  {
  }

  /** Two unsigned features of 4294967295 and 9 bits, both 1: the sum wraps to 8, and one byte is reserved. */
  lemma WrappedSumLeavesRange(size: nat)
    requires size == 0xFFFF_FFFF
    ensures var schemas := [Schema(UNSIGNED, size, []), Schema(UNSIGNED, 9, [])];
      var values := [Number(1), Number(1)];
      && AllWellFormed(schemas)
      && !IndexStays(SerializedValues(schemas, values), TotalSize(SchemaSizes(schemas)), 20)
  {
    hide SerializedValues, SchemaSizes, AllWellFormed, AllBits, Sum, TotalSize, IndexStays;
    OnesSerialize(size, 9);
    IndexLeavesIffSumOverflows(
      [Schema(UNSIGNED, size, []), Schema(UNSIGNED, 9, [])], [Number(1), Number(1)], 20);
  }

  lemma OnesSerialize(a: nat, b: nat)
    requires 0 < a < 0x1_0000_0000 && 0 < b < 0x1_0000_0000
    ensures var schemas := [Schema(UNSIGNED, a, []), Schema(UNSIGNED, b, [])];
      && AllWellFormed(schemas) && AllBits(SerializedValues(schemas, [Number(1), Number(1)]))
      && Sum(SchemaSizes(schemas)) == a + b
  {
    var schemas := [Schema(UNSIGNED, a, []), Schema(UNSIGNED, b, [])];
    var all := SerializedValues(schemas, [Number(1), Number(1)]);
    OneFits(a);
    OneFits(b);
    assert all == [SerializeUnsigned(a, Number(1)), SerializeUnsigned(b, Number(1))];
    assert SchemaSizes(schemas) == [a, b];
    SumOfTwo(a, b);
  }

  lemma SumOfTwo(a: nat, b: nat)
    ensures Sum([a, b]) == a + b
  {
    assert [a, b][..1] == [a] && [a][..0] == [];
    assert Sum([a]) == a;
  }

  lemma OneFits(size: nat)
    requires size > 0
    ensures SerializeUnsigned(size, Number(1)).Bits?
  {
    assert Pow2(size) == 2 * Pow2(size - 1);
  }
}
