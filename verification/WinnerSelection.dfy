/** ScoreAdsReactor::FindWinningAd: drop rejected ads in place, sort, pick winner and ghost-winner candidates. */
module WinnerSelection {
  import opened Sequences
  import opened AuctionTypes
  import opened AdRejection

  // ---------- the swap-to-end rejection loop ----------

  function Dropped(auction: Auction, ad: ScoredAd): Option<ScoredAd> {
    if Survivor(auction, ad).None? then Some(Examine(auction, ad)) else None
  }

  function DroppedAds(auction: Auction, ads: seq<ScoredAd>): seq<ScoredAd> {
    FilterMap(ad => Dropped(auction, ad), ads)
  }

  lemma ExaminedNext(auction: Auction, seen: seq<ScoredAd>, ad: ScoredAd)
    ensures Survivors(auction, seen + [ad]) ==
              Survivors(auction, seen) + (if Survivor(auction, ad).Some? then [Examine(auction, ad)] else [])
    ensures DroppedAds(auction, seen + [ad]) ==
              DroppedAds(auction, seen) + (if Survivor(auction, ad).None? then [Examine(auction, ad)] else [])
    ensures RecordedReasons(auction, seen + [ad]) ==
              RecordedReasons(auction, seen) + ListOf(RecordedReason(auction, ad))
  {
    FilterMapSnoc(x => Survivor(auction, x), seen, ad);
    FilterMapSnoc(x => Dropped(auction, x), seen, ad);
    FilterMapSnoc(x => RecordedReason(auction, x), seen, ad);
  }

  lemma ExaminedInAnyOrder(auction: Auction, a: seq<ScoredAd>, b: seq<ScoredAd>)
    requires multiset(a) == multiset(b)
    ensures multiset(Survivors(auction, a)) == multiset(Survivors(auction, b))
    ensures multiset(DroppedAds(auction, a)) == multiset(DroppedAds(auction, b))
    ensures multiset(RecordedReasons(auction, a)) == multiset(RecordedReasons(auction, b))
  {
    FilterMapPermutation(x => Survivor(auction, x), a, b);
    FilterMapPermutation(x => Dropped(auction, x), a, b);
    FilterMapPermutation(x => RecordedReason(auction, x), a, b);
  }

  /** The debug-reporting map holds, per id, the score scoreAd() returned, before any update. */
  ghost predicate RecordsOriginals(adScores: map<string, AdScore>, seen: seq<ScoredAd>) {
    && (forall ad :: ad in seen ==> ad.id in adScores)
    && (forall id :: id in adScores ==> exists ad :: ad in seen && ad.id == id && ad.score == adScores[id])
  }

  /** The state of the loop after examining the ads in seen, in that order. */
  ghost predicate Progress(
    auction: Auction, was: seq<ScoredAd>, now: seq<ScoredAd>, index: nat, end: nat,
    seen: seq<ScoredAd>, reasons: seq<AdRejectionReason>)
  {
    && index <= end <= |now| == |was|
    && multiset(seen) + multiset(now[index..end]) == multiset(was)
    && now[..index] == Survivors(auction, seen)
    && multiset(now[end..]) == multiset(DroppedAds(auction, seen))
    && reasons == RecordedReasons(auction, seen)
  }

  function Emplace(adScores: map<string, AdScore>, ad: ScoredAd): map<string, AdScore> {
    if ad.id in adScores then adScores else adScores[ad.id := ad.score]
  }

  lemma RecordsOneMore(adScores: map<string, AdScore>, seen: seq<ScoredAd>, ad: ScoredAd)
    requires RecordsOriginals(adScores, seen)
    ensures RecordsOriginals(Emplace(adScores, ad), seen + [ad])
  {
    var next := Emplace(adScores, ad);
    forall id | id in next ensures exists a :: a in seen + [ad] && a.id == id && a.score == next[id] {
      if id in adScores {
        var a :| a in seen && a.id == id && a.score == adScores[id];
        assert a in seen + [ad];
      } else {
        assert ad in seen + [ad];
      }
    }
  }

  /** Dropping an ad: it moves behind the shrunken end, the former last unexamined ad takes its place. */
  lemma DropStep(before: seq<ScoredAd>, after: seq<ScoredAd>, index: nat, end: nat, examined: ScoredAd)
    requires index < end <= |before|
    requires after == before[index := before[end - 1]][end - 1 := examined]
    ensures after[..index] == before[..index]
    ensures after[end - 1..] == [examined] + before[end..]
    ensures multiset(after[index..end - 1]) + multiset{before[index]} == multiset(before[index..end])
  {
    FillGapWithLast(before, after, index, end);
  }

  lemma KeepStep(before: seq<ScoredAd>, after: seq<ScoredAd>, index: nat, end: nat, examined: ScoredAd)
    requires index < end <= |before|
    requires after == before[index := examined]
    ensures after[..index + 1] == before[..index] + [examined]
    ensures after[end..] == before[end..]
    ensures multiset(after[index + 1..end]) + multiset{before[index]} == multiset(before[index..end])
  {
    SliceSplit(before, index, index + 1, end);
    assert after[index + 1..end] == before[index + 1..end];
  }

  function AfterOne(auction: Auction, ads: seq<ScoredAd>, index: nat, end: nat): seq<ScoredAd>
    requires index < end <= |ads|
  {
    if Survivor(auction, ads[index]).Some? then ads[index := Examine(auction, ads[index])]
    else ads[index := ads[end - 1]][end - 1 := Examine(auction, ads[index])]
  }

  lemma DropProgress(
    auction: Auction, was: seq<ScoredAd>, before: seq<ScoredAd>, index: nat, end: nat,
    seen: seq<ScoredAd>, reasons: seq<AdRejectionReason>)
    requires Progress(auction, was, before, index, end, seen, reasons) && index < end
    requires Survivor(auction, before[index]).None?
    ensures Progress(auction, was, AfterOne(auction, before, index, end), index, end - 1, seen + [before[index]],
              reasons + ListOf(RecordedReason(auction, before[index])))
  {
    DropStep(before, AfterOne(auction, before, index, end), index, end, Examine(auction, before[index]));
    ExaminedNext(auction, seen, before[index]);
  }

  lemma KeepProgress(
    auction: Auction, was: seq<ScoredAd>, before: seq<ScoredAd>, index: nat, end: nat,
    seen: seq<ScoredAd>, reasons: seq<AdRejectionReason>)
    requires Progress(auction, was, before, index, end, seen, reasons) && index < end
    requires Survivor(auction, before[index]).Some?
    ensures Progress(auction, was, AfterOne(auction, before, index, end), index + 1, end, seen + [before[index]],
              reasons + ListOf(RecordedReason(auction, before[index])))
  {
    KeepStep(before, AfterOne(auction, before, index, end), index, end, Examine(auction, before[index]));
    ExaminedNext(auction, seen, before[index]);
  }

  lemma StepProgress(
    auction: Auction, was: seq<ScoredAd>, before: seq<ScoredAd>, index: nat, end: nat,
    seen: seq<ScoredAd>, reasons: seq<AdRejectionReason>)
    requires Progress(auction, was, before, index, end, seen, reasons) && index < end
    ensures var kept := Survivor(auction, before[index]).Some?;
      Progress(auction, was, AfterOne(auction, before, index, end),
        if kept then index + 1 else index, if kept then end else end - 1,
        seen + [before[index]], reasons + ListOf(RecordedReason(auction, before[index])))
  {
    if Survivor(auction, before[index]).Some? {
      KeepProgress(auction, was, before, index, end, seen, reasons);
    } else {
      DropProgress(auction, was, before, index, end, seen, reasons);
    }
  }

  lemma NothingExamined(auction: Auction, was: seq<ScoredAd>)
    ensures Progress(auction, was, was, 0, |was|, [], [])
  {
    assert was[0..|was|] == was;
  }

  lemma AllExamined(
    auction: Auction, was: seq<ScoredAd>, now: seq<ScoredAd>, end: nat,
    seen: seq<ScoredAd>, reasons: seq<AdRejectionReason>)
    requires Progress(auction, was, now, end, end, seen, reasons)
    ensures multiset(now[..end]) == multiset(Survivors(auction, was))
    ensures multiset(now[end..]) == multiset(DroppedAds(auction, was))
    ensures multiset(reasons) == multiset(ReasonsDue(auction, was))
  {
    ExaminedInAnyOrder(auction, seen, was);
    RecordedReasonsAreDue(auction, was);
  }

  /** ScoredAdData::Swap on two slots of the vector, possibly the same one. */
  method Swap(ads: array<ScoredAd>, i: nat, j: nat)
    requires i < ads.Length && j < ads.Length
    modifies ads
    ensures ads[..] == old(ads[..])[j := old(ads[i])][i := old(ads[j])]
  {
    var other := ads[j];
    ads[j] := ads[i];
    ads[i] := other;
  }

  /** The body of the rejection loop. */
  method ExamineAd(
    auction: Auction, ads: array<ScoredAd>, index: nat, end: nat, reasons: seq<AdRejectionReason>,
    rejectedCount: nat, adScores: map<string, AdScore>)
    returns (index': nat, end': nat, reasons': seq<AdRejectionReason>, rejectedCount': nat,
      adScores': map<string, AdScore>)
    requires index < end <= ads.Length
    modifies ads
    ensures var ad := old(ads[index]); var before := old(ads[..]);
      && adScores' == Emplace(adScores, ad)
      && reasons' == reasons + ListOf(RecordedReason(auction, ad))
      && rejectedCount' == rejectedCount + |reasons'| - |reasons|
      && ads[..] == AfterOne(auction, before, index, end)
      && index' == (if Survivor(auction, ad).Some? then index + 1 else index)
      && end' == (if Survivor(auction, ad).Some? then end else end - 1)
  {
    index', end', reasons', rejectedCount' := index, end, reasons, rejectedCount;
    var ad := ads[index];
    adScores' := Emplace(adScores, ad);
    ads[index] := Examine(auction, ad);
    var reason := GetAdRejectionReason(auction, ads[index].json, ads[index].score);
    if reason.Some? && reason.value.reason != NotAvailable {
      rejectedCount' := rejectedCount + 1;
      reasons' := reasons + [reason.value];
      end' := end - 1;
      Swap(ads, end', index);
    } else if NotAllowedInComponentAuction(auction, ads[index]) {
      end' := end - 1;
      Swap(ads, end', index);
    } else {
      index' := index + 1;
    }
  }

  method DropRejectedAds(auction: Auction, ads: array<ScoredAd>)
    returns (end: nat, reasons: seq<AdRejectionReason>, rejectedCount: nat, adScores: map<string, AdScore>)
    modifies ads
    ensures end <= ads.Length
    ensures multiset(ads[..end]) == multiset(Survivors(auction, old(ads[..])))
    ensures multiset(ads[end..]) == multiset(DroppedAds(auction, old(ads[..])))
    ensures multiset(reasons) == multiset(ReasonsDue(auction, old(ads[..])))
    ensures rejectedCount == |reasons|
    ensures RecordsOriginals(adScores, old(ads[..]))
  {
    ghost var was, now, seen := ads[..], ads[..], [];
    var index := 0;
    end := ads.Length;
    reasons, rejectedCount, adScores := [], 0, map[];
    NothingExamined(auction, was);
    while index < end
      invariant 0 <= index <= end <= ads.Length && ads[..] == now
      invariant Progress(auction, was, now, index, end, seen, reasons)
      invariant rejectedCount == |reasons|
      invariant RecordsOriginals(adScores, seen)
      decreases end - index
    {
      ghost var before, i, e, r := now, index, end, reasons;
      RecordsOneMore(adScores, seen, ads[index]);
      index, end, reasons, rejectedCount, adScores :=
        ExamineAd(auction, ads, index, end, reasons, rejectedCount, adScores);
      now := ads[..];
      StepProgress(auction, was, before, i, e, seen, r);
      seen := seen + [before[i]];
    }
    AllExamined(auction, was, now, end, seen, reasons);
    PermutationMembers(seen, was);
  }

  // ---------- std::sort with std::greater ----------

  ghost predicate SortedDescending(s: seq<ScoredAd>) {
    forall i, j :: 0 <= i < j < |s| ==> !Outranks(s[j], s[i])
  }

  lemma InsertKeepsSorted(s: seq<ScoredAd>, x: ScoredAd, p: nat)
    requires SortedDescending(s) && p <= |s|
    requires forall q :: 0 <= q < p ==> Outranks(s[q], x)
    requires p < |s| ==> !Outranks(s[p], x)
    ensures SortedDescending(s[..p] + [x] + s[p..])
  {
    forall q | p <= q < |s| ensures !Outranks(s[q], x) {
      OutranksIsStrictWeakOrder(s[q], s[p], x);
    }
    forall q | 0 <= q < p ensures !Outranks(x, s[q]) {
      OutranksIsStrictWeakOrder(x, s[q], x);
    }
  }

  lemma InsertPermutes<T>(s: seq<T>, x: T, p: nat)
    requires p <= |s|
    ensures multiset(s[..p] + [x] + s[p..]) == multiset(s) + multiset{x}
  {
    assert s == s[..p] + s[p..];
  }

  /** Callers rely on the contract alone: any order among equal ads is possible. */
  method SortDescending(ads: seq<ScoredAd>) returns (r: seq<ScoredAd>)
    ensures multiset(r) == multiset(ads)
    ensures SortedDescending(r)
  {
    r := [];
    for i := 0 to |ads|
      invariant multiset(r) == multiset(ads[..i])
      invariant SortedDescending(r)
    {
      var p := 0;
      while p < |r| && Outranks(r[p], ads[i])
        invariant p <= |r|
        invariant forall q :: 0 <= q < p ==> Outranks(r[q], ads[i])
      {
        p := p + 1;
      }
      InsertKeepsSorted(r, ads[i], p);
      InsertPermutes(r, ads[i], p);
      assert ads[..i + 1] == ads[..i] + [ads[i]];
      r := r[..p] + [ads[i]] + r[p..];
    }
    assert ads[..|ads|] == ads;
  }

  // ---------- winner and ghost-winner candidates ----------

  ghost predicate Winnable(s: seq<ScoredAd>, k: nat) {
    k < |s| && s[k].score.desirability > 0.0 && s[k].kAnon
  }

  /** Not k-anonymous, positive, and sorted before every ad that could win. */
  ghost predicate GhostEligible(s: seq<ScoredAd>, k: nat) {
    k < |s| && s[k].score.desirability > 0.0 && !s[k].kAnon && forall j: nat :: j < k ==> !Winnable(s, j)
  }

  ghost function Winnables(s: seq<ScoredAd>): (f: nat -> bool)
    ensures forall k: nat :: f(k) == Winnable(s, k)
  {
    (k: nat) => Winnable(s, k)
  }

  ghost function GhostEligibles(s: seq<ScoredAd>): (f: nat -> bool)
    ensures forall k: nat :: f(k) == GhostEligible(s, k)
  {
    (k: nat) => GhostEligible(s, k)
  }

  /** AddIfCandsEmptyOrHasEqLastDesirability; the score is passed as an int. */
  function AddIfCandsEmptyOrHasEqLastDesirability(
    ind: nat, desirability: int, ads: seq<ScoredAd>, cands: seq<nat>): seq<nat>
    requires forall c :: c in cands ==> c < |ads|
  {
    if cands == [] then [ind]
    else
      var last := cands[|cands| - 1];
      assert last in cands;
      if ads[last].score.desirability == desirability as real then cands + [ind] else cands
  }

  /** The candidates among the first n ads: the first eligible ad, and the later eligible ones that tie with it
      on a score that survives the conversion to int. */
  ghost predicate TiesWithFirst(s: seq<ScoredAd>, eligible: nat -> bool, n: nat, cands: seq<nat>) {
    && n <= |s|
    && Increasing(cands)
    && (forall c :: c in cands ==> c < n && eligible(c))
    && (cands == [] ==> forall k: nat :: k < n ==> !eligible(k))
    && (cands != [] ==> forall k: nat :: k < n && eligible(k) ==>
          && cands[0] <= k
          && (k in cands <==> k == cands[0] || TiesIntegrally(s, k, cands[0])))
  }

  /** Converted to an int and compared as one, the score is still itself. */
  predicate SurvivesConversion(x: real) {
    Integral(x) && InIntRange(x)
  }

  ghost predicate TiesIntegrally(s: seq<ScoredAd>, k: nat, first: nat)
    requires k < |s| && first < |s|
  {
    s[k].score.desirability == s[first].score.desirability && SurvivesConversion(s[k].score.desirability)
  }

  /** Passing a float score as an int argument. */
  method ToInt(x: real) returns (i: int)
    ensures ConvertsTo(x, i)
  {
    if InIntRange(x) {
      i := Trunc(x);
    } else {
      assert IsInt32(0);
      i :| IsInt32(i);
    }
  }

  lemma TiesStep(s: seq<ScoredAd>, eligible: nat -> bool, n: nat, cands: seq<nat>, desirability: int)
    requires SortedDescending(s) && n < |s| && s[n].score.desirability > 0.0
    requires TiesWithFirst(s, eligible, n, cands) && eligible(n)
    requires ConvertsTo(s[n].score.desirability, desirability)
    ensures TiesWithFirst(s, eligible, n + 1, AddIfCandsEmptyOrHasEqLastDesirability(n, desirability, s, cands))
  {
    if cands != [] {
      var last := cands[|cands| - 1];
      assert cands[0] in cands && last in cands;
      assert s[last].score.desirability == s[cands[0]].score.desirability;
      assert !Outranks(s[n], s[cands[0]]);
      ConversionTies(s[n].score.desirability, s[last].score.desirability, desirability);
      if TiesIntegrally(s, n, cands[0]) {
        TiesOneMore(s, eligible, n, cands);
      }
    }
  }

  lemma TiesOneMore(s: seq<ScoredAd>, eligible: nat -> bool, n: nat, cands: seq<nat>)
    requires n < |s| && TiesWithFirst(s, eligible, n, cands) && eligible(n)
    requires cands != [] && cands[0] < n && TiesIntegrally(s, n, cands[0])
    ensures TiesWithFirst(s, eligible, n + 1, cands + [n])
  {
    IncreasingSnoc(cands, n);
    assert (cands + [n])[0] == cands[0];
  }

  /** Comparing with a score that is no smaller, the converted score is equal iff the score is and survives. */
  lemma ConversionTies(x: real, other: real, i: int)
    requires 0.0 < x <= other && ConvertsTo(x, i)
    ensures other == i as real <==> other == x && SurvivesConversion(x)
  {
    assert x >= Trunc(x) as real;
  }

  lemma TiesSkip(s: seq<ScoredAd>, eligible: nat -> bool, n: nat, cands: seq<nat>)
    requires n < |s| && TiesWithFirst(s, eligible, n, cands) && !eligible(n)
    ensures TiesWithFirst(s, eligible, n + 1, cands)
  {
  }

  method FindCandidates(ads: seq<ScoredAd>) returns (winners: seq<nat>, ghosts: seq<nat>)
    requires SortedDescending(ads)
    ensures TiesWithFirst(ads, Winnables(ads), |ads|, winners)
    ensures TiesWithFirst(ads, GhostEligibles(ads), |ads|, ghosts)
  {
    winners, ghosts := [], [];
    for ind := 0 to |ads|
      invariant TiesWithFirst(ads, Winnables(ads), ind, winners)
      invariant TiesWithFirst(ads, GhostEligibles(ads), ind, ghosts)
    {
      ghost var winnersBefore, ghostsBefore := winners, ghosts;
      var desirability := ads[ind].score.desirability;
      var argument := ToInt(desirability);
      if desirability > 0.0 {
        if ads[ind].kAnon {
          winners := AddIfCandsEmptyOrHasEqLastDesirability(ind, argument, ads, winners);
        } else if winners == [] {
          ghosts := AddIfCandsEmptyOrHasEqLastDesirability(ind, argument, ads, ghosts);
        }
      }
      if Winnable(ads, ind) {
        TiesStep(ads, Winnables(ads), ind, winnersBefore, argument);
      } else {
        TiesSkip(ads, Winnables(ads), ind, winnersBefore);
      }
      assert winnersBefore != [] ==> winnersBefore[0] in winnersBefore;
      if GhostEligible(ads, ind) {
        TiesStep(ads, GhostEligibles(ads), ind, ghostsBefore, argument);
      } else {
        TiesSkip(ads, GhostEligibles(ads), ind, ghostsBefore);
      }
    }
  }

  // ---------- what the candidate lists mean ----------

  /** A positive k-anonymous ad exists iff there are candidates, and every candidate has the best such score. */
  lemma WinnerCandidatesAreMaximal(s: seq<ScoredAd>, winners: seq<nat>)
    requires SortedDescending(s) && TiesWithFirst(s, Winnables(s), |s|, winners)
    ensures winners != [] <==> exists ad :: ad in s && ad.kAnon && ad.score.desirability > 0.0
    ensures forall w :: w in winners ==> s[w].kAnon && s[w].score.desirability > 0.0
    ensures forall w, ad :: w in winners && ad in s && ad.kAnon ==> ad.score.desirability <= s[w].score.desirability
  {
    if winners != [] {
      assert winners[0] in winners && Winnable(s, winners[0]);
      forall w, ad | w in winners && ad in s && ad.kAnon ensures ad.score.desirability <= s[w].score.desirability {
        assert Winnable(s, w);
        assert s[w].score.desirability == s[winners[0]].score.desirability;
        var k: nat :| k < |s| && s[k] == ad;
        if Winnable(s, k) && winners[0] < k {
          assert !Outranks(s[k], s[winners[0]]);
        }
      }
    } else {
      forall ad | ad in s ensures !(ad.kAnon && ad.score.desirability > 0.0) {
        var k: nat :| k < |s| && s[k] == ad;
        assert !Winnable(s, k);
      }
    }
  }

  ghost predicate BestWinnable(s: seq<ScoredAd>, k: nat) {
    Winnable(s, k) && forall j: nat :: Winnable(s, j) ==> s[j].score.desirability <= s[k].score.desirability
  }

  /** The int conversion loses ties: every best ad is a candidate exactly when the best score is a whole number in the
      int range, or only one ad has it. */
  lemma AllTiesIncludedIff(s: seq<ScoredAd>, winners: seq<nat>)
    requires SortedDescending(s) && TiesWithFirst(s, Winnables(s), |s|, winners) && winners != []
    ensures winners[0] in winners && winners[0] < |s|
    ensures (forall k: nat :: BestWinnable(s, k) ==> k in winners) <==>
              SurvivesConversion(s[winners[0]].score.desirability) ||
              (forall j: nat, k: nat :: BestWinnable(s, j) && BestWinnable(s, k) ==> j == k)
  {
    var first := winners[0];
    assert first in winners && Winnable(s, first);
    WinnerCandidatesAreMaximal(s, winners);
    assert BestWinnable(s, first) by {
      forall j: nat | Winnable(s, j) ensures s[j].score.desirability <= s[first].score.desirability {
        assert s[j] in s;
      }
    }
    if k: nat :| BestWinnable(s, k) && k !in winners {
      assert k != first && BestWinnable(s, first) && !TiesIntegrally(s, k, first);
      assert s[k].score.desirability == s[first].score.desirability;
    } else if !SurvivesConversion(s[first].score.desirability) {
      forall k: nat | BestWinnable(s, k) ensures k == first {
        assert k in winners && Winnables(s)(k);
      }
    }
  }

  /** Two k-anonymous ads with the same score 1.5: both are best, and the second is no candidate. */
  lemma FractionalTieIsDropped(ad: ScoredAd)
    requires ad.kAnon && ad.score.desirability == 1.5
    ensures SortedDescending([ad, ad]) && TiesWithFirst([ad, ad], Winnables([ad, ad]), 2, [0])
    ensures BestWinnable([ad, ad], 1) && 1 !in [0]
  {
    assert !Integral(1.5);
  }

  /** Likewise at 3000000000: a whole score, but no int. */
  lemma HugeTieIsDropped(ad: ScoredAd)
    requires ad.kAnon && ad.score.desirability == 3000000000.0
    ensures SortedDescending([ad, ad]) && TiesWithFirst([ad, ad], Winnables([ad, ad]), 2, [0])
    ensures BestWinnable([ad, ad], 1) && Integral(3000000000.0) && 1 !in [0]
  {
    assert Trunc(3000000000.0) == 3000000000;
    assert !InIntRange(3000000000.0);
  }

  lemma GhostEligibleBefore(s: seq<ScoredAd>, g: nat, k: nat)
    requires SortedDescending(s) && GhostEligible(s, g) && k <= g
    ensures GhostEligible(s, k)
  {
    if k < g {
      assert !Outranks(s[g], s[k]) && !Winnable(s, k);
    }
  }

  /** Ghost-winner candidates are not k-anonymous, carry the best positive score of all, and beat every
      k-anonymous contender strictly on (score, bid). */
  lemma GhostCandidatesOutrank(s: seq<ScoredAd>, ghosts: seq<nat>)
    requires SortedDescending(s) && TiesWithFirst(s, GhostEligibles(s), |s|, ghosts)
    ensures forall g :: g in ghosts ==> !s[g].kAnon && s[g].score.desirability > 0.0
    ensures forall g, ad :: g in ghosts && ad in s ==> ad.score.desirability <= s[g].score.desirability
    ensures forall g, ad :: g in ghosts && ad in s && ad.kAnon && ad.score.desirability > 0.0 ==>
              StrictlyAbove(s[g], ad)
  {
    forall g, ad | g in ghosts && ad in s
      ensures ad.score.desirability <= s[g].score.desirability
      ensures ad.kAnon && ad.score.desirability > 0.0 ==> StrictlyAbove(s[g], ad)
    {
      assert ghosts[0] in ghosts;
      assert GhostEligible(s, g) && GhostEligible(s, ghosts[0]);
      assert s[g].score.desirability == s[ghosts[0]].score.desirability;
      var k: nat :| k < |s| && s[k] == ad;
      if k < ghosts[0] {
        GhostEligibleBefore(s, ghosts[0], k);
      } else if ghosts[0] < k {
        assert !Outranks(s[k], s[ghosts[0]]);
      }
      if Winnable(s, k) {
        assert g < k;
        assert !Outranks(s[k], s[g]);
      }
    }
  }

  predicate StrictlyAbove(a: ScoredAd, b: ScoredAd) {
    a.score.desirability > b.score.desirability ||
    (a.score.desirability == b.score.desirability && a.score.buyerBid > b.score.buyerBid)
  }

  /** What GhostCandidatesOutrank says of a ghost candidate. */
  ghost predicate GhostContender(s: seq<ScoredAd>, k: nat) {
    && k < |s| && !s[k].kAnon && s[k].score.desirability > 0.0
    && (forall ad :: ad in s ==> ad.score.desirability <= s[k].score.desirability)
    && (forall ad :: ad in s && ad.kAnon && ad.score.desirability > 0.0 ==> StrictlyAbove(s[k], ad))
  }

  /** There is a ghost candidate iff some ad meets the description; the first one in the order is a candidate, and any
      other exactly if the score survives the conversion to int. */
  lemma GhostCandidatesComplete(s: seq<ScoredAd>, ghosts: seq<nat>, k: nat)
    requires SortedDescending(s) && TiesWithFirst(s, GhostEligibles(s), |s|, ghosts)
    requires GhostContender(s, k)
    ensures ghosts != [] && ghosts[0] in ghosts && GhostContender(s, ghosts[0])
    ensures s[ghosts[0]].score.desirability == s[k].score.desirability
    ensures k in ghosts <==> k == ghosts[0] || SurvivesConversion(s[k].score.desirability)
  {
    forall j: nat | j < k ensures !Winnable(s, j) {
      assert !Outranks(s[k], s[j]) && s[j] in s;
    }
    assert GhostEligibles(s)(k);
    assert ghosts[0] in ghosts && GhostEligible(s, ghosts[0]);
    GhostCandidatesOutrank(s, ghosts);
    assert s[ghosts[0]] in s && s[k] in s;
  }

  /** The ghost counterpart of AllTiesIncludedIff. */
  lemma AllGhostTiesIncludedIff(s: seq<ScoredAd>, ghosts: seq<nat>)
    requires SortedDescending(s) && TiesWithFirst(s, GhostEligibles(s), |s|, ghosts) && ghosts != []
    ensures ghosts[0] in ghosts && ghosts[0] < |s|
    ensures (forall k: nat :: GhostContender(s, k) ==> k in ghosts) <==>
              SurvivesConversion(s[ghosts[0]].score.desirability) ||
              (forall j: nat, k: nat :: GhostContender(s, j) && GhostContender(s, k) ==> j == k)
  {
    var first := ghosts[0];
    assert first in ghosts;
    GhostCandidatesOutrank(s, ghosts);
    assert GhostContender(s, first);
    forall k: nat | GhostContender(s, k)
      ensures k in ghosts <==> k == first || SurvivesConversion(s[first].score.desirability)
    {
      GhostCandidatesComplete(s, ghosts, k);
    }
  }

  // ---------- what the sort leaves open ----------

  /** Two sorted orders of the same ads hold ads that compare equal at every position. */
  lemma SortedAgree(s: seq<ScoredAd>, t: seq<ScoredAd>, i: nat)
    requires SortedDescending(s) && SortedDescending(t) && multiset(s) == multiset(t) && i < |s|
    ensures |s| == |t| && !Outranks(s[i], t[i])
  {
    SameLength(s, t);
    if Outranks(s[i], t[i]) {
      var above := (x: ScoredAd) => Outranks(x, t[i]);
      forall j | 0 <= j < i + 1 ensures above(s[j]) {
        OutranksIsStrictWeakOrder(s[i], s[j], t[i]);
      }
      forall j | i <= j < |t| ensures !above(t[j]) {
        OutranksIsStrictWeakOrder(t[j], t[i], t[i]);
      }
      KeepIfAtLeast(above, s, i + 1);
      KeepIfAtMost(above, t, i);
      KeepIfPermutation(above, s, t);
      SameLength(KeepIf(above, s), KeepIf(above, t));
      assert false;
    }
  }

  /** Which positions are winner candidates does not depend on how the sort orders equal ads. */
  lemma CandidatePositionsAreFixed(s: seq<ScoredAd>, t: seq<ScoredAd>, winners: seq<nat>, others: seq<nat>)
    requires SortedDescending(s) && SortedDescending(t) && multiset(s) == multiset(t)
    requires TiesWithFirst(s, Winnables(s), |s|, winners) && TiesWithFirst(t, Winnables(t), |t|, others)
    ensures forall k :: k in winners <==> k in others
  {
    SameLength(s, t);
    forall k: nat | k < |s|
      ensures s[k].score.desirability == t[k].score.desirability && s[k].kAnon == t[k].kAnon
    {
      SortedAgree(s, t, k);
      SortedAgree(t, s, k);
    }
    assert forall k: nat :: Winnable(s, k) <==> Winnable(t, k);
    if winners != [] {
      assert winners[0] in winners && Winnable(t, winners[0]);
    }
    if others != [] {
      assert others[0] in others && Winnable(s, others[0]);
    }
  }

  lemma {:induction false} CandidatesExist(s: seq<ScoredAd>, eligible: nat -> bool, n: nat) returns (cands: seq<nat>)
    requires SortedDescending(s) && n <= |s|
    requires forall k: nat :: k < n && eligible(k) ==> s[k].score.desirability > 0.0
    ensures TiesWithFirst(s, eligible, n, cands)
  {
    cands := [];
    if n > 0 {
      cands := CandidatesExist(s, eligible, n - 1);
      if eligible(n - 1) {
        var score := s[n - 1].score.desirability;
        var argument := if InIntRange(score) then Trunc(score) else 0;
        TiesStep(s, eligible, n - 1, cands, argument);
        cands := AddIfCandsEmptyOrHasEqLastDesirability(n - 1, argument, s, cands);
      } else {
        TiesSkip(s, eligible, n - 1, cands);
      }
    }
  }

  // ---------- sampling ----------

  /** std::sample: any selection of the requested size, in the original order. */
  method ChooseRandomElements(toSampleFrom: seq<nat>, count: nat) returns (sampled: seq<nat>)
    requires count <= |toSampleFrom|
    ensures |sampled| == count
    ensures forall x :: x in sampled ==> x in toSampleFrom
    ensures Increasing(toSampleFrom) ==> Increasing(sampled)
  {
    sampled := [];
    for i := 0 to |toSampleFrom|
      invariant count - (|toSampleFrom| - i) <= |sampled| <= count
      invariant forall x :: x in sampled ==> x in toSampleFrom[..i]
      invariant Increasing(toSampleFrom) ==> Increasing(sampled)
    {
      var take: bool := *;
      if |sampled| < count && (take || count - |sampled| == |toSampleFrom| - i) {
        assert forall j :: 0 <= j < |sampled| ==> sampled[j] in sampled;
        sampled := sampled + [toSampleFrom[i]];
      }
    }
  }

  class ScoringData {
    var winnerIndex: int
    var sellerRejectedBidCount: nat
    var scoreAdMap: map<real, seq<nat>>
    var adRejectionReasons: seq<AdRejectionReason>
    var winnerCandIndices: seq<nat>
    var ghostWinnerCandIndices: seq<nat>
    var ghostWinnerIndices: seq<nat>

    constructor (rejected: nat, reasons: seq<AdRejectionReason>, winners: seq<nat>, ghosts: seq<nat>)
      ensures winnerIndex == -1 && scoreAdMap == map[] && ghostWinnerIndices == []
      ensures sellerRejectedBidCount == rejected && adRejectionReasons == reasons
      ensures winnerCandIndices == winners && ghostWinnerCandIndices == ghosts
    {
      winnerIndex, scoreAdMap, ghostWinnerIndices := -1, map[], [];
      sellerRejectedBidCount, adRejectionReasons := rejected, reasons;
      winnerCandIndices, ghostWinnerCandIndices := winners, ghosts;
    }

    method ChooseWinnerAndGhostWinners(maxGhostWinners: nat)
      requires winnerIndex == -1 && ghostWinnerIndices == []
      requires Increasing(ghostWinnerCandIndices)
      modifies `winnerIndex, `ghostWinnerIndices
      ensures if winnerCandIndices == [] then winnerIndex == -1
              else 0 <= winnerIndex && winnerIndex in winnerCandIndices
      ensures |ghostWinnerIndices| == Min(maxGhostWinners, |ghostWinnerCandIndices|)
      ensures forall g :: g in ghostWinnerIndices ==> g in ghostWinnerCandIndices
      ensures Increasing(ghostWinnerIndices)
    {
      if winnerCandIndices != [] {
        var winner := ChooseRandomElements(winnerCandIndices, 1);
        winnerIndex := winner[0];
      }
      if ghostWinnerCandIndices != [] {
        if |ghostWinnerCandIndices| < maxGhostWinners {
          ghostWinnerIndices := ghostWinnerCandIndices;
        } else {
          ghostWinnerIndices :=
            ChooseRandomElements(ghostWinnerCandIndices, Min(maxGhostWinners, |ghostWinnerCandIndices|));
        }
      }
    }
  }

  // ---------- the per-score index of ads other than ghost candidates ----------

  /** The positions below n, other than ghost candidates, of the ads scored d, in order. */
  ghost predicate Bucket(s: seq<ScoredAd>, ghosts: seq<nat>, n: nat, d: real, bucket: seq<nat>)
    requires n <= |s|
  {
    && Increasing(bucket)
    && forall k: nat :: k in bucket <==> k < n && k !in ghosts && s[k].score.desirability == d
  }

  function Lookup(index: map<real, seq<nat>>, d: real): seq<nat> {
    if d in index then index[d] else []
  }

  ghost predicate ScoreIndex(s: seq<ScoredAd>, ghosts: seq<nat>, n: nat, index: map<real, seq<nat>>) {
    && n <= |s|
    && (forall d :: Bucket(s, ghosts, n, d, Lookup(index, d)))
    && (forall d :: d in index ==> index[d] != [])
  }

  function PushBack(index: map<real, seq<nat>>, d: real, ind: nat): map<real, seq<nat>> {
    index[d := Lookup(index, d) + [ind]]
  }

  lemma BucketStep(s: seq<ScoredAd>, ghosts: seq<nat>, ind: nat, d: real, bucket: seq<nat>)
    requires ind < |s| && Bucket(s, ghosts, ind, d, bucket)
    ensures Bucket(s, ghosts, ind + 1, d,
              if ind in ghosts || s[ind].score.desirability != d then bucket else bucket + [ind])
  {
    IncreasingSnoc(bucket, ind);
  }

  lemma ScoreIndexStep(s: seq<ScoredAd>, ghosts: seq<nat>, ind: nat, index: map<real, seq<nat>>)
    requires ScoreIndex(s, ghosts, ind, index) && ind < |s|
    ensures ScoreIndex(s, ghosts, ind + 1,
              if ind in ghosts then index else PushBack(index, s[ind].score.desirability, ind))
  {
    var next := if ind in ghosts then index else PushBack(index, s[ind].score.desirability, ind);
    forall d ensures Bucket(s, ghosts, ind + 1, d, Lookup(next, d)) {
      BucketStep(s, ghosts, ind, d, Lookup(index, d));
    }
  }

  method BuildScoreIndex(ads: seq<ScoredAd>, ghosts: seq<nat>) returns (index: map<real, seq<nat>>)
    ensures ScoreIndex(ads, ghosts, |ads|, index)
  {
    index := map[];
    for ind := 0 to |ads|
      invariant ScoreIndex(ads, ghosts, ind, index)
    {
      ScoreIndexStep(ads, ghosts, ind, index);
      if ind !in ghosts {
        index := PushBack(index, ads[ind].score.desirability, ind);
      }
    }
  }

  // ---------- the whole selection ----------

  ghost predicate Chosen(
    auction: Auction, parsed: seq<ScoredAd>, winners: seq<nat>, ghosts: seq<nat>, winnerIndex: int,
    ghostWinners: seq<nat>)
  {
    && TiesWithFirst(parsed, Winnables(parsed), |parsed|, winners)
    && TiesWithFirst(parsed, GhostEligibles(parsed), |parsed|, ghosts)
    && (if winners == [] then winnerIndex == -1 else 0 <= winnerIndex && winnerIndex in winners)
    && |ghostWinners| == Min(auction.numAllowedGhostWinners, |ghosts|)
    && Increasing(ghostWinners)
    && (forall g :: g in ghostWinners ==> g in ghosts)
  }

  /** What one run of the selection promises, for the ads as scored and the vector left behind. */
  ghost predicate Selected(
    auction: Auction, scored: seq<ScoredAd>, parsed: seq<ScoredAd>, winners: seq<nat>, ghosts: seq<nat>,
    winnerIndex: int, ghostWinners: seq<nat>)
  {
    && multiset(parsed) == multiset(Survivors(auction, scored))
    && SortedDescending(parsed)
    && Chosen(auction, parsed, winners, ghosts, winnerIndex, ghostWinners)
  }

  /** FindWinningAd after the rejected ads are gone. */
  method SelectAmong(auction: Auction, ads: seq<ScoredAd>, rejected: nat, reasons: seq<AdRejectionReason>)
    returns (parsed: seq<ScoredAd>, data: ScoringData)
    ensures fresh(data)
    ensures multiset(parsed) == multiset(ads) && SortedDescending(parsed)
    ensures Chosen(auction, parsed, data.winnerCandIndices, data.ghostWinnerCandIndices,
              data.winnerIndex, data.ghostWinnerIndices)
    ensures ScoreIndex(parsed, data.ghostWinnerCandIndices, |parsed|, data.scoreAdMap)
    ensures data.sellerRejectedBidCount == rejected && data.adRejectionReasons == reasons
  {
    parsed := SortDescending(ads);
    var winners, ghosts := FindCandidates(parsed);
    var index := BuildScoreIndex(parsed, ghosts);
    data := new ScoringData(rejected, reasons, winners, ghosts);
    data.ChooseWinnerAndGhostWinners(auction.numAllowedGhostWinners);
    data.scoreAdMap := index;
  }

  method FindWinningAd(auction: Auction, ads: array<ScoredAd>)
    returns (parsed: seq<ScoredAd>, data: ScoringData, adScores: map<string, AdScore>)
    modifies ads
    ensures fresh(data)
    ensures Selected(auction, old(ads[..]), parsed, data.winnerCandIndices, data.ghostWinnerCandIndices,
              data.winnerIndex, data.ghostWinnerIndices)
    ensures ScoreIndex(parsed, data.ghostWinnerCandIndices, |parsed|, data.scoreAdMap)
    ensures multiset(data.adRejectionReasons) == multiset(ReasonsDue(auction, old(ads[..])))
    ensures data.sellerRejectedBidCount == |data.adRejectionReasons|
    ensures RecordsOriginals(adScores, old(ads[..]))
  {
    var end, reasons, rejected, originals := DropRejectedAds(auction, ads);
    adScores := originals;
    parsed, data := SelectAmong(auction, ads[..end], rejected, reasons);
  }

  /** The selection in terms of the ads that survive rejection: who wins, and when nobody does. */
  lemma WinnerOutcome(
    auction: Auction, scored: seq<ScoredAd>, parsed: seq<ScoredAd>, winners: seq<nat>, ghosts: seq<nat>,
    winnerIndex: int, ghostWinners: seq<nat>)
    requires Selected(auction, scored, parsed, winners, ghosts, winnerIndex, ghostWinners)
    ensures -1 <= winnerIndex < |parsed|
    ensures winnerIndex == -1 <==>
              forall ad :: ad in Survivors(auction, scored) && ad.kAnon ==> ad.score.desirability <= 0.0
    ensures winnerIndex != -1 ==>
              && parsed[winnerIndex] in Survivors(auction, scored)
              && parsed[winnerIndex].kAnon
              && parsed[winnerIndex].score.desirability > 0.0
              && forall ad :: ad in Survivors(auction, scored) && ad.kAnon ==>
                   ad.score.desirability <= parsed[winnerIndex].score.desirability
  {
    PermutationMembers(parsed, Survivors(auction, scored));
    WinnerCandidatesAreMaximal(parsed, winners);
  }

  /** The ghost winners: distinct losers that only k-anonymity kept from winning. */
  lemma GhostWinnerOutcome(
    auction: Auction, scored: seq<ScoredAd>, parsed: seq<ScoredAd>, winners: seq<nat>, ghosts: seq<nat>,
    winnerIndex: int, ghostWinners: seq<nat>)
    requires Selected(auction, scored, parsed, winners, ghosts, winnerIndex, ghostWinners)
    ensures winnerIndex !in ghosts && NoDuplicates(ghostWinners)
    ensures |ghostWinners| == Min(auction.numAllowedGhostWinners, |ghosts|)
    ensures forall g :: g in ghostWinners ==> g in ghosts
    ensures forall g :: g in ghosts ==> g < |parsed|
    ensures forall g :: g in ghosts ==>
              && parsed[g] in Survivors(auction, scored)
              && !parsed[g].kAnon && parsed[g].score.desirability > 0.0
    ensures forall g, ad :: g in ghosts && ad in Survivors(auction, scored) ==>
              && ad.score.desirability <= parsed[g].score.desirability
              && (ad.kAnon && ad.score.desirability > 0.0 ==> StrictlyAbove(parsed[g], ad))
  {
    PermutationMembers(parsed, Survivors(auction, scored));
    WinnerCandidatesAreMaximal(parsed, winners);
    GhostCandidatesOutrank(parsed, ghosts);
  }
}
