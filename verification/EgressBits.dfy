/** Bit vectors, most significant bit first, and the numbers they stand for. */
module EgressBits {

  function Pow2(n: nat): (p: nat)
    ensures p >= 1
  {
    if n == 0 then 1 else 2 * Pow2(n - 1)
  }

  function Bit(b: bool): nat {
    if b then 1 else 0
  }

  /** The number a bit vector stands for. */
  function Value(bits: seq<bool>): nat {
    if bits == [] then 0 else 2 * Value(bits[..|bits| - 1]) + Bit(bits[|bits| - 1])
  }

  /** The number a stream of bits stands for when the least significant bit comes first. */
  function StreamValue(stream: seq<bool>): nat {
    if stream == [] then 0 else Bit(stream[0]) + 2 * StreamValue(stream[1..])
  }

  function Reverse<T>(s: seq<T>): (r: seq<T>)
    ensures |r| == |s|
    ensures forall i :: 0 <= i < |s| ==> r[i] == s[|s| - 1 - i]
  {
    if s == [] then [] else Reverse(s[1..]) + [s[0]]
  }

  lemma ReverseTwice<T>(s: seq<T>)
    ensures Reverse(Reverse(s)) == s
  {
  }

  lemma {:induction false} StreamValueOfReverse(bits: seq<bool>)
    ensures StreamValue(Reverse(bits)) == Value(bits)
  {
    if bits != [] {
      var front, last := bits[..|bits| - 1], bits[|bits| - 1];
      assert Reverse(bits) == [last] + Reverse(front);
      StreamValueOfReverse(front);
    }
  }

  lemma {:induction false} StreamValueConcat(a: seq<bool>, b: seq<bool>)
    ensures StreamValue(a + b) == StreamValue(a) + Pow2(|a|) * StreamValue(b)
  {
    if a == [] {
      assert a + b == b;
    } else {
      StreamValueConcat(a[1..], b);
      assert (a + b)[1..] == a[1..] + b;
      DoubleProduct(Pow2(|a| - 1), StreamValue(b));
    }
  }

  lemma DoubleProduct(p: nat, v: nat)
    ensures 2 * (p * v) == (2 * p) * v
  {
  }

  /** The low n bits of a number. */
  function BitsOf(num: nat, n: nat): (bits: seq<bool>)
    ensures |bits| == n
  {
    if n == 0 then [] else BitsOf(num / 2, n - 1) + [num % 2 == 1]
  }

  lemma {:induction false} ValueOfBitsOf(num: nat, n: nat)
    requires num < Pow2(n)
    ensures Value(BitsOf(num, n)) == num
  {
    if n > 0 {
      ValueOfBitsOf(num / 2, n - 1);
    }
  }

  lemma {:induction false} BitsOfZero(n: nat)
    ensures forall i :: 0 <= i < n ==> !BitsOf(0, n)[i]
  {
    if n > 0 {
      BitsOfZero(n - 1);
    }
  }

  lemma {:induction false} ValueOfHighBit(bits: seq<bool>)
    requires bits != []
    ensures Value(bits) == Bit(bits[0]) * Pow2(|bits| - 1) + Value(bits[1..])
  {
    if |bits| > 1 {
      var front := bits[..|bits| - 1];
      ValueOfHighBit(front);
      assert front[1..] == bits[1..][..|bits| - 2];
    }
  }

  lemma {:induction false} ValueBound(bits: seq<bool>)
    ensures Value(bits) < Pow2(|bits|)
  {
    if bits != [] {
      ValueBound(bits[..|bits| - 1]);
    }
  }

  /** One more bit written in front of those already there. */
  lemma BitStep(before: seq<bool>, all: seq<bool>, num: nat, i: nat, bit: bool)
    requires i < |before| && all == BitsOf(num, i + 1) + before[i + 1..]
    requires bit == (num % 2 == 1)
    ensures all == BitsOf(num / 2, i) + before[i := bit][i..]
  {
    var front, tail := BitsOf(num / 2, i), before[i + 1..];
    assert all == (front + [bit]) + tail;
    assert before[i := bit][i..] == [bit] + tail;
    assert (front + [bit]) + tail == front + ([bit] + tail);
  }

  /** Writes the bits of a number into a cleared vector, from the back. */
  method UnsignedIntToBits(num: nat, bitRep: array<bool>)
    requires forall i :: 0 <= i < bitRep.Length ==> !bitRep[i]
    modifies bitRep
    ensures bitRep[..] == BitsOf(num, bitRep.Length)
  {
    ghost var all := BitsOf(num, bitRep.Length);
    var left := num;
    var i := bitRep.Length - 1;
    while left != 0 && i >= 0
      invariant -1 <= i < bitRep.Length
      invariant forall k :: 0 <= k <= i ==> !bitRep[k]
      invariant all == BitsOf(left, i + 1) + bitRep[..][i + 1..]
      decreases i
    {
      ghost var before := bitRep[..];
      var bit := left % 2 > 0;
      BitStep(before, all, left, i, bit);
      if bit {
        bitRep[i] := true;
      }
      assert bitRep[..] == before[i := bit];
      left := left / 2;
      i := i - 1;
    }
    if left == 0 {
      BitsOfZero(i + 1);
    }
    assert bitRep[..i + 1] + bitRep[..][i + 1..] == bitRep[..];
    assert BitsOf(left, i + 1) == bitRep[..i + 1];
  }
}
