/** ScoreAdsReactor::PopulateHighestScoringOtherBidsData: the bids reported as "highest scoring other bid". */
module OtherBids {
  import opened Sequences
  import opened AuctionTypes
  import opened WinnerSelection

  /** The bids listed per buyer, in the order they were added. */
  type OtherBidsMap = map<string, seq<real>>

  function BidsOf(owner: string, entries: seq<(string, real)>): seq<real> {
    FilterMap((e: (string, real)) => if e.0 == owner then Some(e.1) else None, entries)
  }

  function Listed(m: OtherBidsMap, owner: string): seq<real> {
    if owner in m then m[owner] else []
  }

  ghost predicate Lists(m: OtherBidsMap, entries: seq<(string, real)>) {
    && (forall owner :: Listed(m, owner) == BidsOf(owner, entries))
    && (forall owner :: owner in m ==> m[owner] != [])
  }

  function UpdateHighestScoringOtherBidMap(bid: real, owner: string, m: OtherBidsMap): OtherBidsMap {
    m[owner := Listed(m, owner) + [bid]]
  }

  lemma ListsOneMore(m: OtherBidsMap, entries: seq<(string, real)>, owner: string, bid: real)
    requires Lists(m, entries)
    ensures Lists(UpdateHighestScoringOtherBidMap(bid, owner, m), entries + [(owner, bid)])
  {
    var next := UpdateHighestScoringOtherBidMap(bid, owner, m);
    forall o ensures Listed(next, o) == BidsOf(o, entries + [(owner, bid)]) {
      FilterMapSnoc((e: (string, real)) => if e.0 == o then Some(e.1) else None, entries, (owner, bid));
      assert Listed(m, o) == BidsOf(o, entries);
    }
  }

  /** What the reactor knows about the ads it dispatched, by dispatch id. */
  datatype Dispatched = Dispatched(
    adData: map<string, AdWithBidMetadata>,
    protectedAppSignalsAdData: map<string, AdWithBidMetadata>)
  {
    predicate Knows(id: string) {
      id in adData || id in protectedAppSignalsAdData
    }

    /** FindScoredAdType: Protected Audience first. */
    function Ad(id: string): AdWithBidMetadata
      requires Knows(id)
    {
      if id in adData then adData[id] else protectedAppSignalsAdData[id]
    }
  }

  /** The owner and bid reported for an ad: the buyer's own bid, unless the seller has a currency; then the bid that
      scoreAd() converted, if the ad's score is recorded. */
  ghost predicate Priced(
    sellerCurrency: string, dispatched: Dispatched, adScores: map<string, AdScore>, ad: ScoredAd, pair: (string, real))
    requires dispatched.Knows(ad.id)
  {
    && pair.0 == dispatched.Ad(ad.id).owner
    && (sellerCurrency == "" ==> pair.1 == dispatched.Ad(ad.id).bid)
    && (sellerCurrency != "" && ad.id in adScores ==> pair.1 == adScores[ad.id].incomingBidInSellerCurrency)
    && (sellerCurrency != "" && ad.id !in adScores ==> pair.1 == dispatched.Ad(ad.id).bid)
  }

  /** One pair for each of the positions. */
  ghost predicate PricedAll(
    sellerCurrency: string, dispatched: Dispatched, adScores: map<string, AdScore>, ads: seq<ScoredAd>,
    indices: seq<nat>, pairs: seq<(string, real)>)
    requires forall ad :: ad in ads ==> dispatched.Knows(ad.id)
  {
    && |pairs| == |indices|
    && forall q :: 0 <= q < |indices| ==>
         indices[q] < |ads| && Priced(sellerCurrency, dispatched, adScores, ads[indices[q]], pairs[q])
  }

  /** The pair that Priced describes. */
  ghost function PriceOf(
    sellerCurrency: string, dispatched: Dispatched, adScores: map<string, AdScore>, ad: ScoredAd)
    : (pair: (string, real))
    requires dispatched.Knows(ad.id)
    ensures Priced(sellerCurrency, dispatched, adScores, ad, pair)
  {
    var source := dispatched.Ad(ad.id);
    (source.owner,
     if sellerCurrency == "" || ad.id !in adScores then source.bid else adScores[ad.id].incomingBidInSellerCurrency)
  }

  ghost function PricesOf(
    sellerCurrency: string, dispatched: Dispatched, adScores: map<string, AdScore>, ads: seq<ScoredAd>,
    indices: seq<nat>): seq<(string, real)>
    requires forall ad :: ad in ads ==> dispatched.Knows(ad.id)
  {
    FilterMap((k: nat) => if k < |ads| then Some(PriceOf(sellerCurrency, dispatched, adScores, ads[k])) else None,
      indices)
  }

  lemma {:induction false} PricesOfAreTheOnlyOnes(
    sellerCurrency: string, dispatched: Dispatched, adScores: map<string, AdScore>, ads: seq<ScoredAd>,
    indices: seq<nat>, pairs: seq<(string, real)>)
    requires forall ad :: ad in ads ==> dispatched.Knows(ad.id)
    requires forall k :: k in indices ==> k < |ads|
    ensures PricedAll(sellerCurrency, dispatched, adScores, ads, indices, pairs) <==>
              pairs == PricesOf(sellerCurrency, dispatched, adScores, ads, indices)
  {
    if indices != [] {
      assert indices[0] in indices && forall k :: k in indices[1..] ==> k in indices;
    }
    if indices != [] && pairs != [] {
      PricesOfAreTheOnlyOnes(sellerCurrency, dispatched, adScores, ads, indices[1..], pairs[1..]);
      assert pairs == [pairs[0]] + pairs[1..];
      PricedSplit(sellerCurrency, dispatched, adScores, ads, indices, pairs);
    }
  }

  lemma PricedSplit(
    sellerCurrency: string, dispatched: Dispatched, adScores: map<string, AdScore>, ads: seq<ScoredAd>,
    indices: seq<nat>, pairs: seq<(string, real)>)
    requires forall ad :: ad in ads ==> dispatched.Knows(ad.id)
    requires indices != [] && pairs != [] && indices[0] < |ads|
    ensures PricedAll(sellerCurrency, dispatched, adScores, ads, indices, pairs) <==>
              && Priced(sellerCurrency, dispatched, adScores, ads[indices[0]], pairs[0])
              && PricedAll(sellerCurrency, dispatched, adScores, ads, indices[1..], pairs[1..])
  {
    if PricedAll(sellerCurrency, dispatched, adScores, ads, indices[1..], pairs[1..]) {
      forall q | 1 <= q < |indices|
        ensures indices[q] < |ads|
        ensures Priced(sellerCurrency, dispatched, adScores, ads[indices[q]], pairs[q])
      {
        assert indices[q] == indices[1..][q - 1] && pairs[q] == pairs[1..][q - 1];
      }
    }
  }

  // ---------- the two top scores ----------

  /** The int comparator puts a before b wherever they stand; a score outside the int range may go anywhere. */
  predicate SurelyBefore(a: real, b: real) {
    InIntRange(a) && InIntRange(b) && Trunc(a) > Trunc(b)
  }

  ghost predicate SortedByInt(r: seq<real>) {
    forall i, j :: 0 <= i < j < |r| ==> !SurelyBefore(r[j], r[i])
  }

  ghost predicate SortedByTrunc(r: seq<real>) {
    forall i, j :: 0 <= i < j < |r| ==> Trunc(r[i]) >= Trunc(r[j])
  }

  /** Every score once. */
  ghost predicate Arranges(scores: set<real>, r: seq<real>) {
    NoDuplicates(r) && forall d :: d in r <==> d in scores
  }

  /** An order the sort may leave the scores in. */
  ghost predicate Lineup(scores: set<real>, r: seq<real>) {
    Arranges(scores, r) && SortedByInt(r)
  }

  /** std::sort with the int comparator. */
  method SortScores(scores: set<real>) returns (r: seq<real>)
    ensures Lineup(scores, r)
  {
    r := [];
    var left := scores;
    while left != {}
      invariant left <= scores
      invariant Arranges(scores - left, r) && SortedByTrunc(r)
      decreases left
    {
      var d := Pick(left);
      var p := 0;
      while p < |r| && Trunc(r[p]) > Trunc(d)
        invariant p <= |r|
        invariant forall q :: 0 <= q < p ==> Trunc(r[q]) > Trunc(d)
      {
        p := p + 1;
      }
      InsertScore(scores - left, r, d, p);
      r := r[..p] + [d] + r[p..];
      left := left - {d};
      assert scores - left == scores - (left + {d}) + {d};
    }
  }

  lemma InsertedMembers<T>(s: seq<T>, x: T, p: nat)
    requires p <= |s|
    ensures forall y :: y in s[..p] + [x] + s[p..] <==> y in s || y == x
    ensures NoDuplicates(s) && x !in s ==> NoDuplicates(s[..p] + [x] + s[p..])
  {
    assert s == s[..p] + s[p..];
    var r := s[..p] + [x] + s[p..];
    assert forall j :: 0 <= j < |r| ==> r[j] == if j < p then s[j] else if j == p then x else s[j - 1];
  }

  lemma InsertScore(scores: set<real>, r: seq<real>, d: real, p: nat)
    requires Arranges(scores, r) && SortedByTrunc(r) && d !in scores && p <= |r|
    requires forall q :: 0 <= q < p ==> Trunc(r[q]) > Trunc(d)
    requires p < |r| ==> Trunc(r[p]) <= Trunc(d)
    ensures Arranges(scores + {d}, r[..p] + [d] + r[p..])
    ensures SortedByTrunc(r[..p] + [d] + r[p..])
  {
    InsertedMembers(r, d, p);
    var r' := r[..p] + [d] + r[p..];
    forall i, j | 0 <= i < j < |r'| ensures Trunc(r'[i]) >= Trunc(r'[j]) {
      assert i != p ==> r'[i] == r[if i < p then i else i - 1];
      assert j != p ==> r'[j] == r[if j < p then j else j - 1];
    }
  }

  /** The scores whose ads are reported: at most two, none after a zero. */
  function TopScores(r: seq<real>): seq<real> {
    if r == [] || r[0] == 0.0 then []
    else if |r| == 1 || r[1] == 0.0 then [r[0]]
    else [r[0], r[1]]
  }

  ghost predicate AtMostOneGreater(d: real, scores: set<real>) {
    forall x, y :: x in scores && y in scores && x > d && y > d ==> x == y
  }

  /** A score to report, whatever the order: one of the two highest, and not zero. */
  ghost predicate IsTopScore(d: real, scores: set<real>) {
    d in scores && d != 0.0 && AtMostOneGreater(d, scores)
  }

  ghost predicate HighestOnTop(scores: set<real>, r: seq<real>) {
    forall d :: d in TopScores(r) <==> IsTopScore(d, scores)
  }

  /** Whatever order the sort leaves. */
  ghost predicate HighestAlwaysOnTop(scores: set<real>) {
    forall r :: Lineup(scores, r) ==> HighestOnTop(scores, r)
  }

  /** x has to come first: it is one of the two highest and y is not, or y is the zero that ends the list. */
  ghost predicate MustPrecede(scores: set<real>, x: real, y: real) {
    && x in scores && y in scores && AtMostOneGreater(x, scores)
    && (!AtMostOneGreater(y, scores) || (y == 0.0 && x > 0.0))
  }

  /** The comparator tells apart all scores of which one has to come first. */
  ghost predicate TopScoresFixed(scores: set<real>) {
    forall x, y :: MustPrecede(scores, x, y) ==> SurelyBefore(x, y)
  }

  lemma {:induction false} Maximum(scores: set<real>) returns (m: real)
    requires scores != {}
    ensures m in scores && forall x :: x in scores ==> x <= m
    decreases scores
  {
    var d := SomeMember(scores);
    m := d;
    var others := scores - {d};
    if others != {} {
      var rest := Maximum(others);
      m := if d > rest then d else rest;
    }
    assert forall x :: x in scores ==> x == d || x in others;
  }

  /** Nothing stands where a score that has to come later would hide one that has to come first. */
  lemma Precedes(scores: set<real>, r: seq<real>, x: real, j: nat) returns (i: nat)
    requires Lineup(scores, r) && TopScoresFixed(scores)
    requires j < |r| && MustPrecede(scores, x, r[j]) && x != r[j]
    ensures i < j && r[i] == x
  {
    assert x in r;
    i :| 0 <= i < |r| && r[i] == x;
  }

  /** Of the scores other than first there is a highest one, and only first can be greater. */
  lemma HighestBut(scores: set<real>, first: real, d: real) returns (m: real)
    requires !AtMostOneGreater(d, scores)
    ensures m in scores && m != first && m > d && AtMostOneGreater(m, scores)
  {
    var a, b :| a in scores && b in scores && a > d && b > d && a != b;
    var rest := scores - {first};
    assert a in rest || b in rest;
    m := Maximum(rest);
    assert forall x :: x in scores ==> x == first || x in rest;
  }

  lemma ReportedIsTop(scores: set<real>, r: seq<real>, k: nat)
    requires Lineup(scores, r) && TopScoresFixed(scores) && k < 2 && k < |r|
    ensures AtMostOneGreater(r[k], scores)
  {
    assert r[k] in r;
    if !AtMostOneGreater(r[k], scores) {
      var m := HighestBut(scores, r[0], r[k]);
      var i := Precedes(scores, r, m, k);
      assert false;
    }
  }

  lemma ThreeOnTop(scores: set<real>, a: real, b: real, c: real)
    requires a in scores && b in scores && c in scores && a != b && a != c && b != c
    ensures !(AtMostOneGreater(a, scores) && AtMostOneGreater(b, scores) && AtMostOneGreater(c, scores))
  {
  }

  lemma TopStandsInFront(scores: set<real>, r: seq<real>, k: nat)
    requires Lineup(scores, r) && TopScoresFixed(scores) && k < |r| && AtMostOneGreater(r[k], scores)
    ensures k < 2
  {
    if k >= 2 {
      assert r[0] in r && r[1] in r && r[k] in r;
      ReportedIsTop(scores, r, 0);
      ReportedIsTop(scores, r, 1);
      ThreeOnTop(scores, r[0], r[1], r[k]);
      assert false;
    }
  }

  lemma NoZeroBeforeTop(scores: set<real>, r: seq<real>, k: nat, j: nat)
    requires Lineup(scores, r) && TopScoresFixed(scores) && j < k < |r|
    requires IsTopScore(r[k], scores) && exists x :: x in scores && x > 0.0
    ensures r[j] != 0.0
  {
    assert r[j] in r && r[k] in r;
    if r[j] == 0.0 && r[k] > 0.0 {
      assert false;
    }
  }

  lemma TopIsReported(scores: set<real>, r: seq<real>, d: real)
    requires Lineup(scores, r) && TopScoresFixed(scores) && IsTopScore(d, scores)
    requires exists x :: x in scores && x > 0.0
    ensures d in TopScores(r)
  {
    assert d in r;
    var k: nat :| k < |r| && r[k] == d;
    TopStandsInFront(scores, r, k);
    if k == 1 {
      NoZeroBeforeTop(scores, r, 1, 0);
    }
  }

  lemma TopScoresAreHighest(scores: set<real>, r: seq<real>)
    requires Lineup(scores, r) && TopScoresFixed(scores)
    requires exists x :: x in scores && x > 0.0
    ensures HighestOnTop(scores, r)
  {
    forall d ensures d in TopScores(r) <==> IsTopScore(d, scores) {
      if d in TopScores(r) {
        var k: nat :| k < 2 && k < |r| && r[k] == d && d != 0.0;
        assert r[k] in r;
        ReportedIsTop(scores, r, k);
      } else if IsTopScore(d, scores) {
        TopIsReported(scores, r, d);
      }
    }
  }

  // ---------- the other direction: an order that hides a top score ----------

  lemma FirstPlace(r: seq<real>, d: real) returns (p: nat)
    ensures p <= |r|
    ensures forall q :: 0 <= q < p ==> Trunc(r[q]) > Trunc(d)
    ensures p < |r| ==> Trunc(r[p]) <= Trunc(d)
  {
    p := 0;
    while p < |r| && Trunc(r[p]) > Trunc(d)
      invariant p <= |r|
      invariant forall q :: 0 <= q < p ==> Trunc(r[q]) > Trunc(d)
    {
      p := p + 1;
    }
  }

  lemma {:induction false} SomeOrder(scores: set<real>) returns (r: seq<real>)
    ensures Arranges(scores, r) && SortedByTrunc(r)
    decreases scores
  {
    r := [];
    if scores != {} {
      var d := SomeMember(scores);
      var others := scores - {d};
      r := SomeOrder(others);
      var p := FirstPlace(r, d);
      InsertScore(others, r, d, p);
      r := r[..p] + [d] + r[p..];
      assert others + {d} == scores;
    }
  }

  /** r has y somewhere before x. */
  ghost predicate Ahead(r: seq<real>, y: real, x: real) {
    exists i, j :: 0 <= i < j < |r| && r[i] == y && r[j] == x
  }

  lemma InsertedAhead(r: seq<real>, p: nat, y: real, x: real)
    requires p <= |r| && x in r[p..]
    ensures Ahead(r[..p] + [y] + r[p..], y, x)
  {
    var j :| 0 <= j < |r[p..]| && r[p..][j] == x;
    var all := r[..p] + [y] + r[p..];
    assert all[p] == y && all[p + 1 + j] == x;
  }

  lemma InsertedInClass(scores: set<real>, x: real, y: real) returns (r: seq<real>)
    requires x in scores && y in scores && x != y && Trunc(y) >= Trunc(x)
    ensures Lineup(scores, r) && Ahead(r, y, x)
  {
    var others := SomeOrder(scores - {y});
    var p := FirstPlace(others, y);
    InsertScore(scores - {y}, others, y, p);
    assert x in others;
    assert others == others[..p] + others[p..];
    InsertedAhead(others, p, y, x);
    assert scores - {y} + {y} == scores;
    r := others[..p] + [y] + others[p..];
  }

  lemma PlacedFirst(scores: set<real>, x: real, y: real) returns (r: seq<real>)
    requires x in scores && y in scores && x != y && !InIntRange(y)
    ensures Lineup(scores, r) && Ahead(r, y, x)
  {
    var others := SomeOrder(scores - {y});
    assert x in others && others[0..] == others && others[..0] == [];
    InsertedMembers(others, y, 0);
    InsertedAhead(others, 0, y, x);
    r := [] + [y] + others;
  }

  lemma PlacedLast(scores: set<real>, x: real, y: real) returns (r: seq<real>)
    requires x in scores && y in scores && x != y && !InIntRange(x)
    ensures Lineup(scores, r) && Ahead(r, y, x)
  {
    var others := SomeOrder(scores - {x});
    var n := |others|;
    assert y in others && others[..n] == others && others[n..] == [];
    InsertedMembers(others, x, n);
    r := others + [x] + [];
    var i :| 0 <= i < n && others[i] == y;
    assert r[i] == y && r[n] == x;
  }

  /** A score that is not surely before another can come after it. */
  lemma SomeOrderAhead(scores: set<real>, x: real, y: real) returns (r: seq<real>)
    requires x in scores && y in scores && x != y && !SurelyBefore(x, y)
    ensures Lineup(scores, r) && Ahead(r, y, x)
  {
    if !InIntRange(y) {
      r := PlacedFirst(scores, x, y);
    } else if !InIntRange(x) {
      r := PlacedLast(scores, x, y);
    } else {
      r := InsertedInClass(scores, x, y);
    }
  }

  /** Standing in front of a score that has to come first, a score hides it or takes its place. */
  lemma AheadIsWrong(scores: set<real>, r: seq<real>, x: real, y: real)
    requires Lineup(scores, r) && MustPrecede(scores, x, y) && Ahead(r, y, x)
    requires exists d :: d in scores && d > 0.0
    ensures !HighestOnTop(scores, r)
  {
    var i, j :| 0 <= i < j < |r| && r[i] == y && r[j] == x;
    assert r[0] in r && r[i] in r && !IsTopScore(y, scores);
    assert x != 0.0 ==> IsTopScore(x, scores);
    if HighestOnTop(scores, r) {
      if x == 0.0 {
        var m := Maximum(scores);
        assert m in TopScores(r) && r[0] in TopScores(r);
        assert r[1] in r && r[1] in TopScores(r);
        ThreeOnTop(scores, r[0], r[1], x);
      }
      assert false;
    }
  }

  /** Whatever order the sort leaves, the scores used are exactly the non-zero ones among the two highest, if and only
      if the comparator puts the two highest before the rest and every positive one before a zero that ends the list. */
  lemma TopScoresAreHighestIff(scores: set<real>)
    requires exists x :: x in scores && x > 0.0
    ensures HighestAlwaysOnTop(scores) <==> TopScoresFixed(scores)
  {
    if TopScoresFixed(scores) {
      forall r | Lineup(scores, r) ensures HighestOnTop(scores, r) {
        TopScoresAreHighest(scores, r);
      }
    } else {
      var x, y :| MustPrecede(scores, x, y) && !SurelyBefore(x, y);
      var r := SomeOrderAhead(scores, x, y);
      AheadIsWrong(scores, r, x, y);
    }
  }

  // ---------- the scores that are used, and positive scores ----------

  ghost predicate PositiveOnTop(scores: set<real>, r: seq<real>) {
    forall d :: d in TopScores(r) <==> d in scores && d > 0.0 && AtMostOneGreater(d, scores)
  }

  ghost predicate PositiveAlwaysOnTop(scores: set<real>) {
    forall r :: Lineup(scores, r) ==> PositiveOnTop(scores, r)
  }

  ghost predicate NoNegativeOnTop(scores: set<real>) {
    forall d :: d in scores && AtMostOneGreater(d, scores) ==> d >= 0.0
  }

  lemma NegativeOnTopIsUsed(scores: set<real>, r: seq<real>)
    requires Lineup(scores, r) && !NoNegativeOnTop(scores)
    requires exists x :: x in scores && x > 0.0
    ensures !PositiveOnTop(scores, r)
  {
    var d :| d in scores && AtMostOneGreater(d, scores) && d < 0.0;
    var x :| x in scores && x > 0.0;
    assert d in r && x in r;
    assert r[0] in r && r[1] in r && r[0] != r[1];
    assert r[0] in TopScores(r) && r[1] in TopScores(r);
  }

  /** Only the positive ones among the two highest scores are used exactly if, besides, none of the two is negative:
      only a zero ends the list. */
  lemma OnlyPositiveScoresUsedIff(scores: set<real>)
    requires exists x :: x in scores && x > 0.0
    ensures PositiveAlwaysOnTop(scores) <==> TopScoresFixed(scores) && NoNegativeOnTop(scores)
  {
    TopScoresAreHighestIff(scores);
    if NoNegativeOnTop(scores) {
      assert forall r :: HighestOnTop(scores, r) <==> PositiveOnTop(scores, r);
    } else {
      var r := SomeOrder(scores);
      NegativeOnTopIsUsed(scores, r);
    }
  }

  /** Whole scores in the int range are told apart. */
  lemma WholeScoresAreFixed(scores: set<real>)
    requires forall d :: d in scores ==> Integral(d) && InIntRange(d)
    ensures TopScoresFixed(scores)
  {
    forall x, y | MustPrecede(scores, x, y) ensures SurelyBefore(x, y) {
      assert x > y;
      WholeAndGreater(x, y);
    }
  }

  lemma WholeAndGreater(x: real, y: real)
    requires Integral(x) && Integral(y) && x > y
    ensures Trunc(x) > Trunc(y)
  {
    assert x.Floor > y.Floor;
    TruncOfWhole(x);
    TruncOfWhole(y);
  }

  lemma TruncOfWhole(x: real)
    requires Integral(x)
    ensures Trunc(x) == x.Floor
  {
    if x < 0.0 {
      assert (-x).Floor == -x.Floor;
    }
  }


  // ---------- filling the map ----------

  /** Positions listed once each: everyone scored one of the tops, except the winner and the ghost candidates. */
  ghost predicate ListedFor(
    ads: seq<ScoredAd>, ghosts: seq<nat>, winnerIndex: int, tops: seq<real>, listed: seq<nat>)
  {
    && NoDuplicates(listed)
    && forall k: nat :: k in listed <==>
         k < |ads| && k !in ghosts && k != winnerIndex && ads[k].score.desirability in tops
  }

  /** Appends the ads of one score, leaving the winner out. */
  method AddBucket(
    sellerCurrency: string, dispatched: Dispatched, adScores: map<string, AdScore>, ads: seq<ScoredAd>,
    winnerIndex: int, bucket: seq<nat>, m: OtherBidsMap, ghost listed: seq<nat>, ghost pairs: seq<(string, real)>)
    returns (m': OtherBidsMap, ghost listed': seq<nat>, ghost pairs': seq<(string, real)>)
    requires forall ad :: ad in ads ==> dispatched.Knows(ad.id)
    requires forall k :: k in bucket ==> k < |ads|
    requires NoDuplicates(bucket) && NoDuplicates(listed)
    requires forall k :: k in bucket ==> k !in listed
    requires PricedAll(sellerCurrency, dispatched, adScores, ads, listed, pairs) && Lists(m, pairs)
    ensures PricedAll(sellerCurrency, dispatched, adScores, ads, listed', pairs') && Lists(m', pairs')
    ensures NoDuplicates(listed')
    ensures forall k: nat :: k in listed' <==> k in listed || (k in bucket && k != winnerIndex)
  {
    m', listed', pairs' := m, listed, pairs;
    for j := 0 to |bucket|
      invariant PricedAll(sellerCurrency, dispatched, adScores, ads, listed', pairs') && Lists(m', pairs')
      invariant NoDuplicates(listed')
      invariant forall k: nat :: k in listed' <==> k in listed || (k in bucket[..j] && k != winnerIndex)
    {
      var k := bucket[j];
      if winnerIndex != k {
        assert k in bucket && k !in bucket[..j];
        var id := ads[k].id;
        var owner, bid := dispatched.Ad(id).owner, dispatched.Ad(id).bid;
        if sellerCurrency != "" {
          if id in adScores {
            bid := adScores[id].incomingBidInSellerCurrency;
          }
        }
        ListsOneMore(m', pairs', owner, bid);
        m' := UpdateHighestScoringOtherBidMap(bid, owner, m');
        listed', pairs' := listed' + [k], pairs' + [(owner, bid)];
      }
      assert bucket[..j + 1] == bucket[..j] + [bucket[j]];
    }
    assert bucket[..|bucket|] == bucket;
  }

  method PopulateHighestScoringOtherBidsData(
    auction: Auction, dispatched: Dispatched, adScores: map<string, AdScore>, ads: seq<ScoredAd>,
    winnerIndex: int, index: map<real, seq<nat>>, ghost ghosts: seq<nat>)
    returns (m: OtherBidsMap, ghost scores: seq<real>, ghost listed: seq<nat>, ghost pairs: seq<(string, real)>)
    requires ScoreIndex(ads, ghosts, |ads|, index)
    requires forall ad :: ad in ads ==> dispatched.Knows(ad.id)
    ensures auction.scope.TopLevel? ==> m == map[]
    ensures !auction.scope.TopLevel? ==>
              && Lineup(index.Keys, scores)
              && ListedFor(ads, ghosts, winnerIndex, TopScores(scores), listed)
              && PricedAll(auction.sellerCurrency, dispatched, adScores, ads, listed, pairs)
              && Lists(m, pairs)
  {
    m, scores, listed, pairs := map[], [], [], [];
    if auction.scope.TopLevel? {
      return;
    }
    var scoresList := SortScores(index.Keys);
    scores := scoresList;
    var i := 0;
    while i < 2 && i < |scoresList|
      invariant i <= 2 && i <= |scoresList|
      invariant forall q :: 0 <= q < i ==> scoresList[q] != 0.0
      invariant PricedAll(auction.sellerCurrency, dispatched, adScores, ads, listed, pairs) && Lists(m, pairs)
      invariant ListedFor(ads, ghosts, winnerIndex, scoresList[..i], listed)
    {
      if scoresList[i] == 0.0 {
        break;
      }
      assert scoresList[i] in scoresList;
      var bucket := index[scoresList[i]];
      assert Bucket(ads, ghosts, |ads|, scoresList[i], Lookup(index, scoresList[i]));
      assert scoresList[i] !in scoresList[..i];
      assert scoresList[..i + 1] == scoresList[..i] + [scoresList[i]];
      m, listed, pairs :=
        AddBucket(auction.sellerCurrency, dispatched, adScores, ads, winnerIndex, bucket, m, listed, pairs);
      i := i + 1;
    }
    assert scoresList[..i] == TopScores(scoresList);
  }

  // ---------- what is reported, and when that is what the documentation says ----------

  /** The scores of the ads that are not ghost candidates. */
  ghost function OtherScores(ads: seq<ScoredAd>, ghosts: seq<nat>): set<real> {
    set k: nat | k < |ads| && k !in ghosts :: ads[k].score.desirability
  }

  /** Among the ads that are not ghost candidates, at most one higher score exists. */
  ghost predicate SecondOrBetter(ads: seq<ScoredAd>, ghosts: seq<nat>, k: nat)
    requires k < |ads|
  {
    AtMostOneGreater(ads[k].score.desirability, OtherScores(ads, ghosts))
  }

  lemma IndexedScores(ads: seq<ScoredAd>, ghosts: seq<nat>, index: map<real, seq<nat>>)
    requires ScoreIndex(ads, ghosts, |ads|, index)
    ensures index.Keys == OtherScores(ads, ghosts)
  {
    forall d ensures d in index <==> d in OtherScores(ads, ghosts) {
      assert Bucket(ads, ghosts, |ads|, d, Lookup(index, d));
      if d in index {
        assert index[d][0] in index[d];
      }
    }
  }

  /** The winner has a positive score and is no ghost candidate. */
  ghost predicate WonBy(ads: seq<ScoredAd>, ghosts: seq<nat>, winnerIndex: nat) {
    winnerIndex < |ads| && winnerIndex !in ghosts && ads[winnerIndex].score.desirability > 0.0
  }

  /** Exactly the ads with one of the two highest scores are listed; a score of zero never is, a negative one can be. */
  lemma ListedExactly(
    ads: seq<ScoredAd>, ghosts: seq<nat>, winnerIndex: nat, index: map<real, seq<nat>>, scores: seq<real>,
    listed: seq<nat>, k: nat)
    requires ScoreIndex(ads, ghosts, |ads|, index) && TopScoresFixed(OtherScores(ads, ghosts))
    requires Lineup(index.Keys, scores) && ListedFor(ads, ghosts, winnerIndex, TopScores(scores), listed)
    requires WonBy(ads, ghosts, winnerIndex)
    ensures k in listed <==>
              && k < |ads| && k !in ghosts && k != winnerIndex
              && ads[k].score.desirability != 0.0 && SecondOrBetter(ads, ghosts, k)
  {
    IndexedScores(ads, ghosts, index);
    assert ads[winnerIndex].score.desirability in OtherScores(ads, ghosts);
    TopScoresAreHighest(OtherScores(ads, ghosts), scores);
    if k < |ads| && k !in ghosts {
      assert ads[k].score.desirability in OtherScores(ads, ghosts);
    }
  }

  ghost predicate Reported(ads: seq<ScoredAd>, ghosts: seq<nat>, winnerIndex: nat, k: nat) {
    k < |ads| && k !in ghosts && k != winnerIndex && ads[k].score.desirability > 0.0 && SecondOrBetter(ads, ghosts, k)
  }

  /** No ad that would be listed is negative. */
  ghost predicate NoNegativeSecond(ads: seq<ScoredAd>, ghosts: seq<nat>) {
    forall k: nat :: k < |ads| && k !in ghosts && SecondOrBetter(ads, ghosts, k) ==> ads[k].score.desirability >= 0.0
  }

  /** A seller whose second-best score is negative gets those bids reported too: the listed ads are the positively
      scored ones exactly when no ad in the two top scores is negative. */
  lemma OnlyPositiveScoresListedIff(
    ads: seq<ScoredAd>, ghosts: seq<nat>, winnerIndex: nat, index: map<real, seq<nat>>, scores: seq<real>,
    listed: seq<nat>)
    requires ScoreIndex(ads, ghosts, |ads|, index) && TopScoresFixed(OtherScores(ads, ghosts))
    requires Lineup(index.Keys, scores) && ListedFor(ads, ghosts, winnerIndex, TopScores(scores), listed)
    requires WonBy(ads, ghosts, winnerIndex)
    ensures (forall k: nat :: k in listed <==> Reported(ads, ghosts, winnerIndex, k)) <==>
              NoNegativeSecond(ads, ghosts)
  {
    forall k: nat
      ensures k in listed <==>
                && k < |ads| && k !in ghosts && k != winnerIndex
                && ads[k].score.desirability != 0.0 && SecondOrBetter(ads, ghosts, k)
    {
      ListedExactly(ads, ghosts, winnerIndex, index, scores, listed, k);
    }
    if k: nat :| k < |ads| && k !in ghosts && SecondOrBetter(ads, ghosts, k) && ads[k].score.desirability < 0.0 {
      assert k in listed && !Reported(ads, ghosts, winnerIndex, k);
    }
  }

  /** Two k-anonymous ads scored 5 and -2: the second is listed. */
  lemma NegativeScoreIsListed(a: ScoredAd, b: ScoredAd)
    requires a.kAnon && a.score.desirability == 5.0 && b.kAnon && b.score.desirability == -2.0
    ensures WonBy([a, b], [], 0) && Lineup({5.0, -2.0}, [5.0, -2.0])
    ensures ScoreIndex([a, b], [], 2, map[5.0 := [0], -2.0 := [1]])
    ensures ListedFor([a, b], [], 0, TopScores([5.0, -2.0]), [1])
  {
    var tops: seq<real> := [5.0, -2.0];
    assert tops[0] in tops && tops[1] in tops;
    assert TopScores(tops) == tops;
    var listed: seq<nat> := [1];
    assert forall k: nat :: k in listed <==> k == 1;
  }

  /** Owner's list holds, up to order, the bids of these pairs, and there is one only if some pair is the owner's. */
  ghost predicate HoldsBids(m: OtherBidsMap, owner: string, pairs: seq<(string, real)>) {
    && multiset(Listed(m, owner)) == multiset(BidsOf(owner, pairs))
    && (owner in m <==> exists q :: 0 <= q < |pairs| && pairs[q].0 == owner)
  }

  lemma ListsHoldBids(m: OtherBidsMap, pairs: seq<(string, real)>, owner: string)
    requires Lists(m, pairs)
    ensures HoldsBids(m, owner, pairs)
  {
    var ofOwner := (e: (string, real)) => if e.0 == owner then Some(e.1) else None;
    assert Listed(m, owner) == BidsOf(owner, pairs);
    if owner in m {
      var bid := BidsOf(owner, pairs)[0];
      FilterMapMember(ofOwner, pairs, bid);
      var e :| e in pairs && ofOwner(e) == Some(bid);
      assert exists q :: 0 <= q < |pairs| && pairs[q] == e;
    }
    if q :| 0 <= q < |pairs| && pairs[q].0 == owner {
      FilterMapMember(ofOwner, pairs, pairs[q].1);
      assert pairs[q] in pairs && ofOwner(pairs[q]) == Some(pairs[q].1);
      assert pairs[q].1 in BidsOf(owner, pairs);
    }
  }

  lemma HoldsInAnyOrder(m: OtherBidsMap, owner: string, pairs: seq<(string, real)>, others: seq<(string, real)>)
    requires HoldsBids(m, owner, pairs) && multiset(pairs) == multiset(others)
    ensures HoldsBids(m, owner, others)
  {
    FilterMapPermutation((e: (string, real)) => if e.0 == owner then Some(e.1) else None, pairs, others);
    PermutationMembers(pairs, others);
    if q :| 0 <= q < |pairs| && pairs[q].0 == owner {
      assert pairs[q] in others;
    }
    if q :| 0 <= q < |others| && others[q].0 == owner {
      assert others[q] in pairs;
    }
  }

  /** Every buyer's list is, up to order, the bids of its ads that hold one of the two highest positive scores and are
      neither the winner nor a ghost candidate. */
  lemma OtherBidsAreTopTwo(
    sellerCurrency: string, dispatched: Dispatched, adScores: map<string, AdScore>,
    ads: seq<ScoredAd>, ghosts: seq<nat>, winnerIndex: nat, index: map<real, seq<nat>>, scores: seq<real>,
    listed: seq<nat>, pairs: seq<(string, real)>, m: OtherBidsMap, reported: seq<nat>, owner: string)
    returns (prices: seq<(string, real)>)
    requires ScoreIndex(ads, ghosts, |ads|, index)
    requires TopScoresFixed(OtherScores(ads, ghosts)) && NoNegativeSecond(ads, ghosts)
    requires forall ad :: ad in ads ==> dispatched.Knows(ad.id)
    requires Lineup(index.Keys, scores) && ListedFor(ads, ghosts, winnerIndex, TopScores(scores), listed)
    requires WonBy(ads, ghosts, winnerIndex)
    requires PricedAll(sellerCurrency, dispatched, adScores, ads, listed, pairs) && Lists(m, pairs)
    requires Increasing(reported) && forall k: nat :: k in reported <==> Reported(ads, ghosts, winnerIndex, k)
    ensures PricedAll(sellerCurrency, dispatched, adScores, ads, reported, prices) && HoldsBids(m, owner, prices)
  {
    OnlyPositiveScoresListedIff(ads, ghosts, winnerIndex, index, scores, listed);
    SameElements(listed, reported);
    var price := (k: nat) => if k < |ads| then Some(PriceOf(sellerCurrency, dispatched, adScores, ads[k])) else None;
    FilterMapPermutation(price, listed, reported);
    prices := PricesOf(sellerCurrency, dispatched, adScores, ads, reported);
    PricesOfAreTheOnlyOnes(sellerCurrency, dispatched, adScores, ads, listed, pairs);
    PricesOfAreTheOnlyOnes(sellerCurrency, dispatched, adScores, ads, reported, prices);
    ListsHoldBids(m, pairs, owner);
    HoldsInAnyOrder(m, owner, pairs, prices);
  }

  /** Scores 1.2, 1.5 and 1.9 all compare equal as ints, so the sort may leave the best one out of the top two. */
  lemma FractionalScoresCanHideTheBest()
    ensures exists r :: Lineup({1.2, 1.5, 1.9}, r) && 1.9 !in TopScores(r)
  {
    var r := [1.2, 1.5, 1.9];
    assert Trunc(1.2) == 1 && Trunc(1.5) == 1 && Trunc(1.9) == 1;
    assert Lineup({1.2, 1.5, 1.9}, r);
    assert TopScores(r) == [1.2, 1.5];
  }
}
