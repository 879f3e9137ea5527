/** Egress features: how one feature of a payload turns into bits, and what the bits say. */
module EgressFeatures {
  import opened Sequences
  import opened EgressBits

  const BOOLEAN := "boolean-feature"
  const SIGNED := "signed-integer-feature"
  const UNSIGNED := "unsigned-integer-feature"
  const BUCKET := "bucket-feature"
  const HISTOGRAM := "histogram-feature"

  datatype SubSchema = SubSchema(name: string, size: nat)

  /** A feature of a schema; subs describes the numbers of a histogram. */
  datatype Schema = Schema(name: string, size: nat, subs: seq<SubSchema>)

  /** The JSON of a payload feature, as far as serialization looks at it. */
  datatype Json = Boolean(b: bool) | Number(n: int) | Array(elems: seq<Item>) | OtherJson
  datatype Item = NotAnObject | Object(name: string, value: Json)

  /** Undefined marks inputs for which the conversion has no defined result in the source language. */
  datatype Serialized = Bits(bits: seq<bool>) | Error | Undefined

  predicate IsUint(value: Json) {
    value.Number? && 0 <= value.n < 0x1_0000_0000
  }

  predicate IsInt(value: Json) {
    value.Number? && -0x8000_0000 <= value.n < 0x8000_0000
  }

  function Zeros(n: nat): seq<bool> {
    seq(n, _ => false)
  }

  function SerializeUnsigned(size: nat, value: Json): Serialized {
    if !IsUint(value) then Error
    else if value.n > Pow2(size) - 1 then Error
    else Bits(BitsOf(value.n, size))
  }

  /** With size 0 the bound is 2 to the power of the wrapped uint32 size - 1, so every number passes it. */
  function SerializeSigned(size: nat, value: Json): Serialized {
    if !IsInt(value) then Error
    else if size > 0 && (value.n >= Pow2(size - 1) || value.n + Pow2(size - 1) < 0) then Error
    else if value.n >= 0 then Bits(BitsOf(value.n, size))
    else if size == 0 || size > 32 then Undefined
    else Bits(BitsOf(value.n + Pow2(size - 1), size)[0 := true])
  }

  /** SetValue checks the type, Serialize the value. */
  function SerializeSub(sub: SubSchema, item: Item): Serialized {
    if item.NotAnObject? then Error
    else if sub.name == UNSIGNED then
      if item.name != UNSIGNED then Error else SerializeUnsigned(sub.size, item.value)
    else if sub.name == SIGNED then
      if item.name != SIGNED then Error else SerializeSigned(sub.size, item.value)
    else Error
  }

  /** The numbers of a histogram, the last one in front. */
  function SerializeSubs(subs: seq<SubSchema>, items: seq<Item>): Serialized
    requires |subs| == |items|
  {
    if subs == [] then Bits([])
    else
      var first := SerializeSub(subs[0], items[0]);
      if !first.Bits? then first
      else
        var rest := SerializeSubs(subs[1..], items[1..]);
        if rest.Bits? then Bits(rest.bits + first.bits) else rest
  }

  /** The booleans of a bucket, the last one in front. */
  function SerializeBucket(items: seq<Item>): Serialized {
    if items == [] then Bits([])
    else if !items[0].Object? || !items[0].value.Boolean? then Error
    else
      var rest := SerializeBucket(items[1..]);
      if rest.Bits? then Bits(rest.bits + [items[0].value.b]) else rest
  }

  function SubSizes(subs: seq<SubSchema>): nat {
    if subs == [] then 0 else subs[0].size + SubSizes(subs[1..])
  }

  /** EgressFeature::Size and its histogram override; both are uint32. */
  function SizeOf(schema: Schema): nat {
    (if schema.name == HISTOGRAM then SubSizes(schema.subs) else schema.size) % 0x1_0000_0000
  }

  function SerializeValue(schema: Schema, value: Json): Serialized {
    if schema.name == BOOLEAN then
      if value.Boolean? then Bits([value.b]) else Error
    else if schema.name == UNSIGNED then SerializeUnsigned(schema.size, value)
    else if schema.name == SIGNED then SerializeSigned(schema.size, value)
    else if schema.name == BUCKET then
      if value.Array? && |value.elems| == schema.size then SerializeBucket(value.elems) else Error
    else if schema.name == HISTOGRAM then
      if value.Array? && |value.elems| == |schema.subs| then SerializeSubs(schema.subs, value.elems) else Error
    else Error
  }

  /** A feature whose value was never set serializes to zeros. */
  function Serialize(schema: Schema, value: Option<Json>): Serialized {
    match value
    case None => Bits(Zeros(if schema.name == BOOLEAN then 1 else SizeOf(schema)))
    case Some(v) => SerializeValue(schema, v)
  }

  // ---------- sizes ----------

  /** What the schema language promises of a feature: sizes are uint32, a boolean is one bit. */
  predicate WellFormed(schema: Schema) {
    && schema.name in {BOOLEAN, SIGNED, UNSIGNED, BUCKET, HISTOGRAM}
    && schema.size < 0x1_0000_0000
    && (schema.name == BOOLEAN ==> schema.size == 1)
    && (schema.name == HISTOGRAM ==> SubSizes(schema.subs) < 0x1_0000_0000)
  }

  lemma {:induction false} SubsLength(subs: seq<SubSchema>, items: seq<Item>)
    requires |subs| == |items|
    ensures SerializeSubs(subs, items).Bits? ==> |SerializeSubs(subs, items).bits| == SubSizes(subs)
  {
    if subs != [] {
      SubsLength(subs[1..], items[1..]);
    }
  }

  lemma {:induction false} BucketLength(items: seq<Item>)
    ensures SerializeBucket(items).Bits? ==> |SerializeBucket(items).bits| == |items|
  {
    if items != [] {
      BucketLength(items[1..]);
    }
  }

  /** A feature takes exactly the bits its schema declares. */
  lemma SerializedLength(schema: Schema, value: Option<Json>)
    requires WellFormed(schema)
    ensures Serialize(schema, value).Bits? ==> |Serialize(schema, value).bits| == SizeOf(schema)
  {
    if value.Some? && value.value.Array? {
      BucketLength(value.value.elems);
      if |value.value.elems| == |schema.subs| {
        SubsLength(schema.subs, value.value.elems);
      }
    }
  }

  // ---------- what the bits say ----------

  datatype Meaning = Truth(b: bool) | Num(n: int) | Truths(bs: seq<bool>) | Nums(ns: seq<int>) | Nothing

  function NumberIn(item: Item): int {
    if item.Object? && item.value.Number? then item.value.n else 0
  }

  function TruthIn(item: Item): bool {
    item.Object? && item.value.Boolean? && item.value.b
  }

  function NumbersIn(items: seq<Item>): seq<int> {
    if items == [] then [] else [NumberIn(items[0])] + NumbersIn(items[1..])
  }

  function TruthsIn(items: seq<Item>): seq<bool> {
    if items == [] then [] else [TruthIn(items[0])] + TruthsIn(items[1..])
  }

  function MeaningOf(value: Json, schema: Schema): Meaning {
    match value
    case Boolean(b) => Truth(b)
    case Number(n) => Num(n)
    case Array(elems) =>
      if schema.name == BUCKET then Truths(TruthsIn(elems)) else Nums(NumbersIn(elems))
    case OtherJson => Nothing
  }

  /** Two's complement, most significant bit first. */
  function DecodeSigned(bits: seq<bool>): int {
    if bits != [] && bits[0] then Value(bits) - Pow2(|bits|) else Value(bits)
  }

  function DecodeSubs(subs: seq<SubSchema>, bits: seq<bool>): seq<int>
    requires |bits| == SubSizes(subs)
  {
    if subs == [] then []
    else
      var at := |bits| - subs[0].size;
      var first := bits[at..];
      [DecodeSub(subs[0], first)] + DecodeSubs(subs[1..], bits[..at])
  }

  function Decode(schema: Schema, bits: seq<bool>): Meaning
    requires schema.name == HISTOGRAM ==> |bits| == SubSizes(schema.subs)
    requires schema.name == BOOLEAN ==> |bits| == 1
  {
    if schema.name == BOOLEAN then Truth(bits[0])
    else if schema.name == UNSIGNED then Num(Value(bits))
    else if schema.name == SIGNED then Num(DecodeSigned(bits))
    else if schema.name == BUCKET then Truths(Reverse(bits))
    else if schema.name == HISTOGRAM then Nums(DecodeSubs(schema.subs, bits))
    else Nothing
  }

  /** A zero-bit signed field keeps only the number zero. */
  predicate SignedSurvives(size: nat, n: int) {
    size > 0 || n == 0
  }

  /** No number of the value is in a zero-bit signed field, unless it is zero. */
  predicate NothingLost(schema: Schema, value: Json) {
    && (schema.name == SIGNED && value.Number? ==> SignedSurvives(schema.size, value.n))
    && (schema.name == HISTOGRAM && value.Array? && |value.elems| == |schema.subs| ==>
          NoMemberLost(schema.subs, value.elems))
  }

  predicate NoMemberLost(subs: seq<SubSchema>, items: seq<Item>)
    requires |subs| == |items|
  {
    forall k :: 0 <= k < |subs| && subs[k].name == SIGNED ==> SignedSurvives(subs[k].size, NumberIn(items[k]))
  }

  lemma UnsignedRoundTrip(size: nat, value: Json)
    requires SerializeUnsigned(size, value).Bits?
    ensures Value(SerializeUnsigned(size, value).bits) == value.n
  {
    ValueOfBitsOf(value.n, size);
  }

  lemma SignedRoundTrip(size: nat, value: Json)
    requires size > 0 && SerializeSigned(size, value).Bits?
    ensures DecodeSigned(SerializeSigned(size, value).bits) == value.n
  {
    var half := Pow2(size - 1);
    var magnitude := if value.n >= 0 then value.n else value.n + half;
    var plain := BitsOf(magnitude, size);
    ValueOfBitsOf(magnitude, size);
    ValueOfHighBit(plain);
    ValueBound(plain[1..]);
    if value.n < 0 {
      var flagged := plain[0 := true];
      ValueOfHighBit(flagged);
      assert flagged[1..] == plain[1..];
    }
  }

  /** Every number that is not refused comes back exactly in fields of one to 32 bits. Below that a number passes the
      bound check and leaves no trace, above it a negative one passes the check and has no defined conversion. */
  lemma SignedRoundTripIff(size: nat)
    ensures (forall value :: SerializeSigned(size, value) != Error ==>
               && SerializeSigned(size, value).Bits?
               && DecodeSigned(SerializeSigned(size, value).bits) == value.n) <==> 0 < size <= 32
  {
    if 0 < size <= 32 {
      forall value | SerializeSigned(size, value) != Error
        ensures SerializeSigned(size, value).Bits? && DecodeSigned(SerializeSigned(size, value).bits) == value.n
      {
        SignedRoundTrip(size, value);
      }
    } else if size == 0 {
      ZeroBitNumberIsLost();
    } else {
      assert SerializeSigned(size, Number(-1)) == Undefined;
    }
  }

  /** 5 in a field of no bits is accepted and reads as 0. */
  lemma ZeroBitNumberIsLost()
    ensures SerializeSigned(0, Number(5)) == Bits([]) && DecodeSigned([]) == 0
  {
  }

  /** -1 in a field of 40 bits is accepted and has no defined conversion, though the schema language allows it. */
  lemma WideNegativeIsUndefined()
    ensures WellFormed(Schema(SIGNED, 40, []))
    ensures SerializeValue(Schema(SIGNED, 40, []), Number(-1)) == Undefined
    ensures SerializeValue(Schema(SIGNED, 40, []), Number(1)).Bits?
  {
    UndefinedNumberIff(40, Number(-1));
  }

  function DecodeSub(sub: SubSchema, bits: seq<bool>): int {
    if sub.name == SIGNED then DecodeSigned(bits) else Value(bits)
  }

  lemma SubRoundTrip(sub: SubSchema, item: Item)
    requires SerializeSub(sub, item).Bits?
    ensures |SerializeSub(sub, item).bits| == sub.size
    ensures DecodeSub(sub, SerializeSub(sub, item).bits) == NumberIn(item) <==>
              (sub.name == SIGNED ==> SignedSurvives(sub.size, NumberIn(item)))
  {
    if sub.name == SIGNED {
      if sub.size > 0 {
        SignedRoundTrip(sub.size, item.value);
      }
    } else {
      UnsignedRoundTrip(sub.size, item.value);
    }
  }

  lemma {:induction false} SubsRoundTrip(subs: seq<SubSchema>, items: seq<Item>)
    requires |subs| == |items| && SerializeSubs(subs, items).Bits?
    ensures |SerializeSubs(subs, items).bits| == SubSizes(subs)
    ensures DecodeSubs(subs, SerializeSubs(subs, items).bits) == NumbersIn(items) <==> NoMemberLost(subs, items)
  {
    SubsLength(subs, items);
    if subs != [] {
      SubsRoundTrip(subs[1..], items[1..]);
      SubRoundTrip(subs[0], items[0]);
      var first := SerializeSub(subs[0], items[0]).bits;
      var rest := SerializeSubs(subs[1..], items[1..]).bits;
      assert (rest + first)[..|rest|] == rest && (rest + first)[|rest|..] == first;
      FirstThenRest(
        DecodeSub(subs[0], first), DecodeSubs(subs[1..], rest), NumberIn(items[0]), NumbersIn(items[1..]));
      NoMemberLostSplit(subs, items);
    }
  }

  lemma FirstThenRest(a: int, s: seq<int>, b: int, t: seq<int>)
    ensures [a] + s == [b] + t <==> a == b && s == t
  {
    if [a] + s == [b] + t {
      assert ([a] + s)[0] == a && ([b] + t)[0] == b;
      assert ([a] + s)[1..] == s && ([b] + t)[1..] == t;
    }
  }

  lemma NoMemberLostSplit(subs: seq<SubSchema>, items: seq<Item>)
    requires |subs| == |items| && subs != []
    ensures NoMemberLost(subs, items) <==>
              && (subs[0].name == SIGNED ==> SignedSurvives(subs[0].size, NumberIn(items[0])))
              && NoMemberLost(subs[1..], items[1..])
  {
    if NoMemberLost(subs[1..], items[1..]) {
      forall k | 1 <= k < |subs| && subs[k].name == SIGNED ensures SignedSurvives(subs[k].size, NumberIn(items[k])) {
        assert subs[1..][k - 1] == subs[k];
      }
    }
  }

  lemma {:induction false} BucketRoundTrip(items: seq<Item>)
    requires SerializeBucket(items).Bits?
    ensures Reverse(SerializeBucket(items).bits) == TruthsIn(items)
  {
    BucketLength(items);
    if items != [] {
      BucketRoundTrip(items[1..]);
      var rest := SerializeBucket(items[1..]).bits;
      assert Reverse(rest + [items[0].value.b]) == [items[0].value.b] + Reverse(rest);
    }
  }

  /** The bits of a feature give back its value exactly if no zero-bit field swallows a number. */
  lemma FeatureRoundTrip(schema: Schema, value: Json)
    requires WellFormed(schema)
    requires SerializeValue(schema, value).Bits?
    ensures |SerializeValue(schema, value).bits| == SizeOf(schema)
    ensures Decode(schema, SerializeValue(schema, value).bits) == MeaningOf(value, schema) <==>
              NothingLost(schema, value)
  {
    SerializedLength(schema, Some(value));
    if schema.name == UNSIGNED {
      UnsignedRoundTrip(schema.size, value);
    } else if schema.name == SIGNED {
      if schema.size > 0 {
        SignedRoundTrip(schema.size, value);
      }
    } else if schema.name == BUCKET {
      BucketRoundTrip(value.elems);
    } else if schema.name == HISTOGRAM {
      SubsRoundTrip(schema.subs, value.elems);
    }
  }

  // ---------- which values are accepted ----------

  /** Some bits of that width stand for the number. */
  ghost predicate FitsUnsigned(size: nat, n: int) {
    exists bits: seq<bool> :: |bits| == size && Value(bits) == n
  }

  /** Some bits of that width stand for the number in two's complement. */
  ghost predicate FitsSigned(size: nat, n: int) {
    exists bits: seq<bool> :: |bits| == size && DecodeSigned(bits) == n
  }

  /** An unsigned field accepts every number that its bits can stand for, as far as a uint32 holds it. */
  ghost predicate UnsignedAccepts(size: nat, value: Json) {
    value.Number? && value.n < 0x1_0000_0000 && FitsUnsigned(size, value.n)
  }

  /** A signed field of one to 32 bits accepts exactly what its bits can stand for; a field without bits, or with more,
      takes every int that is not negative. */
  ghost predicate SignedAccepts(size: nat, value: Json) {
    value.Number? && if 0 < size <= 32 then FitsSigned(size, value.n) else 0 <= value.n < 0x8000_0000
  }

  ghost predicate MemberAccepts(sub: SubSchema, item: Item) {
    && item.Object? && item.name == sub.name
    && ((sub.name == UNSIGNED && UnsignedAccepts(sub.size, item.value)) ||
        (sub.name == SIGNED && SignedAccepts(sub.size, item.value)))
  }

  predicate IsTruth(item: Item) {
    item.Object? && item.value.Boolean?
  }

  ghost predicate Accepts(schema: Schema, value: Json) {
    if schema.name == BOOLEAN then value.Boolean?
    else if schema.name == UNSIGNED then UnsignedAccepts(schema.size, value)
    else if schema.name == SIGNED then SignedAccepts(schema.size, value)
    else if schema.name == BUCKET then
      value.Array? && |value.elems| == schema.size && forall item :: item in value.elems ==> IsTruth(item)
    else schema.name == HISTOGRAM && value.Array? && AllMembersAccept(schema.subs, value.elems)
  }

  ghost predicate AllMembersAccept(subs: seq<SubSchema>, items: seq<Item>) {
    |subs| == |items| && forall k :: 0 <= k < |subs| ==> MemberAccepts(subs[k], items[k])
  }

  lemma UnsignedAcceptedIff(size: nat, value: Json)
    ensures SerializeUnsigned(size, value).Bits? <==> UnsignedAccepts(size, value)
  {
    if SerializeUnsigned(size, value).Bits? {
      UnsignedRoundTrip(size, value);
      assert |SerializeUnsigned(size, value).bits| == size;
    } else if UnsignedAccepts(size, value) {
      var bits: seq<bool> :| |bits| == size && Value(bits) == value.n;
      ValueBound(bits);
      assert false;
    }
  }

  lemma SignedBound(bits: seq<bool>)
    requires bits != []
    ensures DecodeSigned(bits) + Pow2(|bits| - 1) >= 0 && DecodeSigned(bits) < Pow2(|bits| - 1)
  {
    ValueOfHighBit(bits);
    ValueBound(bits[1..]);
  }

  lemma {:induction false} Pow2Grows(m: nat, n: nat)
    requires m <= n
    ensures Pow2(m) <= Pow2(n)
    decreases n - m
  {
    if m < n {
      Pow2Grows(m + 1, n);
    }
  }

  lemma SignedAcceptedIff(size: nat, value: Json)
    ensures SerializeSigned(size, value).Bits? <==> SignedAccepts(size, value)
  {
    assert Pow2(31) == 0x8000_0000 by { Pow2Of32(); }
    if 0 < size <= 32 {
      Pow2Grows(size - 1, 31);
      if SerializeSigned(size, value).Bits? {
        SignedRoundTrip(size, value);
        assert |SerializeSigned(size, value).bits| == size;
      } else if SignedAccepts(size, value) {
        var bits: seq<bool> :| |bits| == size && DecodeSigned(bits) == value.n;
        SignedBound(bits);
        assert false;
      }
    } else if size > 32 {
      Pow2Grows(31, size - 1);
    }
  }

  lemma MemberAcceptedIff(sub: SubSchema, item: Item)
    ensures SerializeSub(sub, item).Bits? <==> MemberAccepts(sub, item)
  {
    if item.Object? {
      UnsignedAcceptedIff(sub.size, item.value);
      SignedAcceptedIff(sub.size, item.value);
    }
  }

  lemma {:induction false} SubsAcceptedIff(subs: seq<SubSchema>, items: seq<Item>)
    requires |subs| == |items|
    ensures SerializeSubs(subs, items).Bits? <==> AllMembersAccept(subs, items)
  {
    if subs != [] {
      MemberAcceptedIff(subs[0], items[0]);
      SubsAcceptedIff(subs[1..], items[1..]);
      if AllMembersAccept(subs[1..], items[1..]) {
        forall k | 1 <= k < |subs| ensures MemberAccepts(subs[k], items[k]) {
          assert MemberAccepts(subs[1..][k - 1], items[1..][k - 1]);
        }
      }
    }
  }

  lemma {:induction false} BucketAcceptedIff(items: seq<Item>)
    ensures SerializeBucket(items).Bits? <==> forall item :: item in items ==> IsTruth(item)
  {
    if items != [] {
      BucketAcceptedIff(items[1..]);
      assert items[0] in items && forall item :: item in items <==> item == items[0] || item in items[1..];
    }
  }

  /** A value is serialized exactly if its type is the feature's and every number and truth value in it has a place. */
  lemma AcceptedIff(schema: Schema, value: Json)
    ensures SerializeValue(schema, value).Bits? <==> Accepts(schema, value)
  {
    if schema.name == UNSIGNED {
      UnsignedAcceptedIff(schema.size, value);
    } else if schema.name == SIGNED {
      SignedAcceptedIff(schema.size, value);
    } else if schema.name == BUCKET && value.Array? {
      BucketAcceptedIff(value.elems);
    } else if schema.name == HISTOGRAM && value.Array? && |value.elems| == |schema.subs| {
      SubsAcceptedIff(schema.subs, value.elems);
    }
  }

  /** A feature whose value was never set reads as nothing but zeros. */
  lemma UnsetReadsAsZero(schema: Schema)
    requires WellFormed(schema)
    ensures var bits := Serialize(schema, None).bits;
      |bits| == SizeOf(schema) && Value(bits) == 0 && DecodeSigned(bits) == 0
  {
    ValueOfZeros(Serialize(schema, None).bits);
  }

  lemma {:induction false} ValueOfZeros(bits: seq<bool>)
    requires forall k :: 0 <= k < |bits| ==> !bits[k]
    ensures Value(bits) == 0
  {
    if bits != [] {
      ValueOfZeros(bits[..|bits| - 1]);
    }
  }

  // ---------- undefined conversions ----------

  /** A negative number passes the bound check of a field whose width leaves its conversion undefined. */
  predicate UndefinedNumber(size: nat, value: Json) {
    IsInt(value) && value.n < 0 && (size == 0 || size > 32)
  }

  predicate UndefinedMember(sub: SubSchema, item: Item) {
    && sub.name == SIGNED && item.Object? && item.name == SIGNED
    && UndefinedNumber(sub.size, item.value)
  }

  /** The first member that does not serialize is such a number. */
  ghost predicate UndefinedAmong(subs: seq<SubSchema>, items: seq<Item>)
    requires |subs| == |items|
  {
    exists k :: 0 <= k < |subs| && UndefinedMember(subs[k], items[k]) &&
      forall j :: 0 <= j < k ==> SerializeSub(subs[j], items[j]).Bits?
  }

  lemma NegativeIsNotTooWide(size: nat, n: int)
    requires size > 32 && -0x8000_0000 <= n
    ensures n + Pow2(size - 1) >= 0
    decreases size
  {
    if size == 33 {
      assert Pow2(32) == 0x1_0000_0000 by { Pow2Of32(); }
    } else {
      NegativeIsNotTooWide(size - 1, n);
    }
  }

  lemma Pow2Of32()
    ensures Pow2(32) == 0x1_0000_0000
  {
    assert Pow2(8) == 0x100;
    assert Pow2(16) == 0x1_0000;
    assert Pow2(24) == 0x100_0000;
  }

  lemma UndefinedNumberIff(size: nat, value: Json)
    ensures SerializeSigned(size, value) == Undefined <==> UndefinedNumber(size, value)
  {
    if size > 32 && IsInt(value) {
      NegativeIsNotTooWide(size, value.n);
    }
  }

  lemma {:induction false} UndefinedAmongIff(subs: seq<SubSchema>, items: seq<Item>)
    requires |subs| == |items|
    ensures SerializeSubs(subs, items) == Undefined <==> UndefinedAmong(subs, items)
  {
    if subs != [] {
      if items[0].Object? {
        UndefinedNumberIff(subs[0].size, items[0].value);
      }
      UndefinedAmongIff(subs[1..], items[1..]);
      UndefinedAmongSplit(subs, items);
    }
  }

  lemma UndefinedAmongSplit(subs: seq<SubSchema>, items: seq<Item>)
    requires |subs| == |items| && subs != []
    ensures UndefinedAmong(subs, items) <==>
              || UndefinedMember(subs[0], items[0])
              || (SerializeSub(subs[0], items[0]).Bits? && UndefinedAmong(subs[1..], items[1..]))
  {
    if UndefinedMember(subs[0], items[0]) {
      assert UndefinedAmong(subs, items);
    } else if UndefinedAmong(subs, items) {
      var k :| 0 <= k < |subs| && UndefinedMember(subs[k], items[k]) &&
        forall j :: 0 <= j < k ==> SerializeSub(subs[j], items[j]).Bits?;
      assert UndefinedMember(subs[1..][k - 1], items[1..][k - 1]);
      assert forall j :: 0 <= j < k - 1 ==> SerializeSub(subs[1..][j], items[1..][j]).Bits?;
    }
    if SerializeSub(subs[0], items[0]).Bits? && UndefinedAmong(subs[1..], items[1..]) {
      UndefinedLater(subs, items);
    }
  }

  lemma UndefinedLater(subs: seq<SubSchema>, items: seq<Item>)
    requires |subs| == |items| && subs != []
    requires SerializeSub(subs[0], items[0]).Bits? && UndefinedAmong(subs[1..], items[1..])
    ensures UndefinedAmong(subs, items)
  {
    var k :| 0 <= k < |subs[1..]| && UndefinedMember(subs[1..][k], items[1..][k]) &&
      forall j :: 0 <= j < k ==> SerializeSub(subs[1..][j], items[1..][j]).Bits?;
    forall j | 0 <= j < k + 1 ensures SerializeSub(subs[j], items[j]).Bits? {
      if j > 0 {
        assert subs[1..][j - 1] == subs[j] && items[1..][j - 1] == items[j];
      }
    }
    assert UndefinedMember(subs[k + 1], items[k + 1]);
  }

  lemma {:induction false} BucketDefined(items: seq<Item>)
    ensures !SerializeBucket(items).Undefined?
  {
    if items != [] {
      BucketDefined(items[1..]);
    }
  }

  /** Serializing a value is undefined exactly if it meets such a number before anything it refuses. */
  lemma UndefinedValueIff(schema: Schema, value: Json)
    ensures SerializeValue(schema, value) == Undefined <==>
              || (schema.name == SIGNED && UndefinedNumber(schema.size, value))
              || (&& schema.name == HISTOGRAM && value.Array? && |value.elems| == |schema.subs|
                  && UndefinedAmong(schema.subs, value.elems))
  {
    if schema.name == SIGNED {
      UndefinedNumberIff(schema.size, value);
    } else if schema.name == BUCKET && value.Array? {
      BucketDefined(value.elems);
    } else if schema.name == HISTOGRAM && value.Array? && |value.elems| == |schema.subs| {
      UndefinedAmongIff(schema.subs, value.elems);
    }
  }
}
