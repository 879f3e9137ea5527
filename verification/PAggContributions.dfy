/** ProcessPAggContributions: collect the indices to remove, then erase them back to front. */
module PAggContributions {
  import opened Sequences

  /** The zero value of the event-type enum. */
  const EVENT_TYPE_UNSPECIFIED: nat := 0

  datatype Contribution = Contribution(eventType: nat, payload: int)

  class AdWithBid {
    var privateAggregationContributions: seq<Contribution>

    constructor (contributions: seq<Contribution>)
      ensures privateAggregationContributions == contributions
    {
      privateAggregationContributions := contributions;
    }
  }

  /** The contributions of one event type, in order. */
  function OfType(s: seq<Contribution>, eventType: nat): seq<Contribution> {
    FilterMap((c: Contribution) => if c.eventType == eventType then Some(c) else None, s)
  }

  /** How many contributions of the type of s[i] come before it. */
  function Earlier(s: seq<Contribution>, i: nat): nat
    requires i < |s|
  {
    |OfType(s[..i], s[i].eventType)|
  }

  /** Kept: a specified type, and fewer than limit of that type before. */
  predicate Keeps(s: seq<Contribution>, limit: int, i: nat)
    requires i < |s|
  {
    s[i].eventType != EVENT_TYPE_UNSPECIFIED && Earlier(s, i) < limit
  }

  function KeptFrom(s: seq<Contribution>, limit: int, from: nat): seq<Contribution>
    requires from <= |s|
    decreases |s| - from
  {
    if from == |s| then []
    else (if Keeps(s, limit, from) then [s[from]] else []) + KeptFrom(s, limit, from + 1)
  }

  function Kept(s: seq<Contribution>, limit: int): seq<Contribution> {
    KeptFrom(s, limit, 0)
  }

  lemma OfTypeNext(s: seq<Contribution>, i: nat, eventType: nat)
    requires i < |s|
    ensures OfType(s[..i + 1], eventType) ==
              OfType(s[..i], eventType) + if s[i].eventType == eventType then [s[i]] else []
  {
    assert s[..i + 1] == s[..i] + [s[i]];
    FilterMapSnoc((c: Contribution) => if c.eventType == eventType then Some(c) else None, s[..i], s[i]);
  }

  /** The counter of a type: the contributions kept so far, which is the number seen, capped. */
  ghost predicate Counts(s: seq<Contribution>, limit: int, i: nat, counts: map<nat, int>)
    requires i <= |s|
  {
    forall t :: t != EVENT_TYPE_UNSPECIFIED ==>
      (if t in counts then counts[t] else 0) == Capped(|OfType(s[..i], t)|, limit)
  }

  function Capped(n: nat, limit: int): int {
    if limit <= 0 then 0 else if n < limit then n else limit
  }

  lemma CountsAtStart(s: seq<Contribution>, limit: int)
    ensures Counts(s, limit, 0, map[])
  {
  }

  /** What the counter of s[i]'s type says of s[i], and what becomes of the counters. */
  lemma CountsNext(s: seq<Contribution>, limit: int, i: nat, counts: map<nat, int>)
    requires i < |s| && Counts(s, limit, i, counts)
    ensures var t := s[i].eventType;
      var count := if t in counts then counts[t] else 0;
      && (Keeps(s, limit, i) <==> t != EVENT_TYPE_UNSPECIFIED && count < limit)
      && Counts(s, limit, i + 1, if Keeps(s, limit, i) then counts[t := count + 1] else counts)
  {
    forall t ensures OfType(s[..i + 1], t) == OfType(s[..i], t) + if s[i].eventType == t then [s[i]] else [] {
      OfTypeNext(s, i, t);
    }
  }

  method CollectIndicesToRemove(s: seq<Contribution>, limit: int) returns (indices: seq<nat>)
    ensures Increasing(indices)
    ensures forall i: nat :: i in indices <==> i < |s| && !Keeps(s, limit, i)
  {
    var counts: map<nat, int> := map[];
    CountsAtStart(s, limit);
    hide Counts, Keeps;
    indices := [];
    for i := 0 to |s|
      invariant Increasing(indices)
      invariant forall k: nat :: k in indices <==> k < i && !Keeps(s, limit, k)
      invariant Counts(s, limit, i, counts)
    {
      var t := s[i].eventType;
      var count := if t in counts then counts[t] else 0;
      CountsNext(s, limit, i, counts);
      if t == EVENT_TYPE_UNSPECIFIED || count >= limit {
        IncreasingSnoc(indices, i);
        indices := indices + [i];
      } else {
        counts := counts[t := count + 1];
      }
    }
  }

  /** A stretch without removals is kept whole. */
  lemma {:induction false} KeptStretch(s: seq<Contribution>, limit: int, from: nat, to: nat)
    requires from <= to <= |s|
    requires forall i :: from <= i < to ==> Keeps(s, limit, i)
    ensures KeptFrom(s, limit, from) == s[from..to] + KeptFrom(s, limit, to)
    decreases |s| - from
  {
    if from < to {
      KeptStretch(s, limit, from + 1, to);
      var rest := KeptFrom(s, limit, to);
      assert KeptFrom(s, limit, from) == [s[from]] + KeptFrom(s, limit, from + 1);
      assert s[from..to] == [s[from]] + s[from + 1..to];
      assert [s[from]] + (s[from + 1..to] + rest) == ([s[from]] + s[from + 1..to]) + rest;
    } else {
      assert s[from..to] == [];
    }
  }

  lemma DropAt<T>(s: seq<T>, rest: seq<T>, r: nat, upTo: nat)
    requires r < upTo <= |s|
    ensures var list := s[..upTo] + rest;
      list[..r] + list[r + 1..] == s[..r] + (s[r + 1..upTo] + rest)
  {
    var list := s[..upTo] + rest;
    assert list[..r] == s[..r];
    assert list[r + 1..] == s[r + 1..upTo] + rest;
  }

  lemma EraseStep(s: seq<Contribution>, limit: int, r: nat, upTo: nat)
    requires r < upTo <= |s| && !Keeps(s, limit, r)
    requires forall i :: r < i < upTo ==> Keeps(s, limit, i)
    ensures var list := s[..upTo] + KeptFrom(s, limit, upTo);
      list[..r] + list[r + 1..] == s[..r] + KeptFrom(s, limit, r)
  {
    assert KeptFrom(s, limit, r) == KeptFrom(s, limit, r + 1);
    KeptStretch(s, limit, r + 1, upTo);
    hide KeptFrom, Keeps;
    DropAt(s, KeptFrom(s, limit, upTo), r, upTo);
  }

  /** The result is the stable filter; no erase index is ever out of range. */
  method ProcessPAggContributions(bid: AdWithBid, limit: int)
    modifies bid
    ensures bid.privateAggregationContributions == Kept(old(bid.privateAggregationContributions), limit)
  {
    ghost var s := bid.privateAggregationContributions;
    var indices := CollectIndicesToRemove(bid.privateAggregationContributions, limit);
    var it := |indices|;
    ghost var upTo := |s|;
    assert s[..|s|] + KeptFrom(s, limit, |s|) == s;
    while it > 0
      invariant 0 <= it <= |indices|
      invariant upTo == if it < |indices| then indices[it] else |s|
      invariant upTo <= |s|
      invariant bid.privateAggregationContributions == s[..upTo] + KeptFrom(s, limit, upTo)
    {
      it := it - 1;
      var r := indices[it];
      assert r in indices;
      forall i | r < i < upTo ensures Keeps(s, limit, i) {
        assert i !in indices;
      }
      EraseStep(s, limit, r, upTo);
      var list := bid.privateAggregationContributions;
      bid.privateAggregationContributions := list[..r] + list[r + 1..];
      upTo := r;
    }
    forall i | 0 <= i < upTo ensures Keeps(s, limit, i) {
      assert i !in indices;
    }
    KeptStretch(s, limit, 0, upTo);
  }

  // ---------- what the filter means ----------

  lemma {:induction false} KeptFromOfType(s: seq<Contribution>, limit: nat, from: nat, t: nat)
    requires from <= |s| && t != EVENT_TYPE_UNSPECIFIED
    ensures var seen := |OfType(s[..from], t)|;
      var room := if seen < limit then limit - seen else 0;
      OfType(KeptFrom(s, limit, from), t) ==
        OfType(s[from..], t)[..Min(room, |OfType(s[from..], t)|)]
    decreases |s| - from
  {
    if from < |s| {
      KeptFromOfType(s, limit, from + 1, t);
      OfTypeNext(s, from, t);
      assert s[from..][1..] == s[from + 1..];
      var f := (c: Contribution) => if c.eventType == t then Some(c) else None;
      FilterMapConcat(f, if Keeps(s, limit, from) then [s[from]] else [], KeptFrom(s, limit, from + 1));
      FilterMapSnoc(f, [], s[from]);
      assert [] + [s[from]] == [s[from]];
    }
  }

  /** Of each specified type exactly the first limit contributions are left, in their order. */
  lemma KeptIsFirstOfEachType(s: seq<Contribution>, limit: nat, t: nat)
    requires t != EVENT_TYPE_UNSPECIFIED
    ensures OfType(Kept(s, limit), t) == OfType(s, t)[..Min(limit, |OfType(s, t)|)]
  {
    KeptFromOfType(s, limit, 0, t);
    assert s[..0] == [] && s[0..] == s;
  }

  lemma {:induction false} KeptFromSpecified(s: seq<Contribution>, limit: int, from: nat)
    requires from <= |s|
    ensures forall c :: c in KeptFrom(s, limit, from) ==>
              c in s && c.eventType != EVENT_TYPE_UNSPECIFIED && limit > 0
    decreases |s| - from
  {
    if from < |s| {
      KeptFromSpecified(s, limit, from + 1);
    }
  }

  /** Contributions without an event type never stay; with a limit of zero or less nothing does. */
  lemma NothingElseIsKept(s: seq<Contribution>, limit: int)
    ensures OfType(Kept(s, limit), EVENT_TYPE_UNSPECIFIED) == []
    ensures limit <= 0 ==> Kept(s, limit) == []
  {
    KeptFromSpecified(s, limit, 0);
    if OfType(Kept(s, limit), EVENT_TYPE_UNSPECIFIED) != [] {
      FilterMapMember((x: Contribution) => if x.eventType == EVENT_TYPE_UNSPECIFIED then Some(x) else None,
        Kept(s, limit), OfType(Kept(s, limit), EVENT_TYPE_UNSPECIFIED)[0]);
    }
    assert limit <= 0 ==> forall c :: c !in Kept(s, limit);
  }

  lemma {:induction false} KeptWhole(s: seq<Contribution>, limit: int)
    requires forall i :: 0 <= i < |s| ==> Keeps(s, limit, i)
    ensures Kept(s, limit) == s
  {
    KeptStretch(s, limit, 0, |s|);
  }

  /** Processing a processed bid changes nothing. */
  lemma KeptTwice(s: seq<Contribution>, limit: nat)
    ensures Kept(Kept(s, limit), limit) == Kept(s, limit)
  {
    var k := Kept(s, limit);
    KeptFromSpecified(s, limit, 0);
    forall i | 0 <= i < |k| ensures Keeps(k, limit, i) {
      var t := k[i].eventType;
      assert k[i] in k;
      KeptIsFirstOfEachType(s, limit, t);
      OfTypeNext(k, i, t);
      assert k == k[..i + 1] + k[i + 1..];
      FilterMapConcat((c: Contribution) => if c.eventType == t then Some(c) else None, k[..i + 1], k[i + 1..]);
    }
    KeptWhole(k, limit);
  }
}
