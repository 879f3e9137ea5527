/** FilterBidsWithMismatchingCurrency: drop, in place, the bids in a currency their buyer did not declare. */
module CurrencyFilter {
  import opened Sequences
  import opened BidTypes

  predicate Matches(currency: string, buyerCurrency: string) {
    currency == "" || buyerCurrency == currency
  }

  function Matching<T>(currencyOf: T -> string, buyerCurrency: string, ads: seq<T>): seq<T> {
    FilterMap((ad: T) => if Matches(currencyOf(ad), buyerCurrency) then Some(ad) else None, ads)
  }

  lemma {:induction false} MatchingSplit<T>(currencyOf: T -> string, buyerCurrency: string, keep: seq<T>, drop: seq<T>)
    requires forall k :: 0 <= k < |keep| ==> Matches(currencyOf(keep[k]), buyerCurrency)
    requires forall k :: 0 <= k < |drop| ==> !Matches(currencyOf(drop[k]), buyerCurrency)
    ensures Matching(currencyOf, buyerCurrency, keep + drop) == keep
    decreases |keep| + |drop|
  {
    if keep != [] {
      MatchingSplit(currencyOf, buyerCurrency, keep[1..], drop);
      assert (keep + drop)[1..] == keep[1..] + drop;
    } else if drop != [] {
      MatchingSplit(currencyOf, buyerCurrency, keep, drop[1..]);
      assert keep + drop == drop && keep + drop[1..] == drop[1..];
    }
  }

  lemma {:induction false} MatchingCount<T>(currencyOf: T -> string, buyerCurrency: string, ads: seq<T>, ad: T)
    ensures multiset(Matching(currencyOf, buyerCurrency, ads))[ad] ==
              if Matches(currencyOf(ad), buyerCurrency) then multiset(ads)[ad] else 0
  {
    if ads != [] {
      MatchingCount(currencyOf, buyerCurrency, ads[1..], ad);
      assert ads == [ads[0]] + ads[1..];
    }
  }

  /** Swap mismatches to the end, look again at what was swapped in, and cut the end off. */
  method FilterBidsWithMismatchingCurrencyHelper<T>(adsWithBids: seq<T>, currencyOf: T -> string, buyerCurrency: string)
    returns (r: seq<T>)
    ensures multiset(r) == multiset(Matching(currencyOf, buyerCurrency, adsWithBids))
  {
    r := adsWithBids;
    var i := 0;
    var removeStartingAt := |r|;
    while i < removeStartingAt
      invariant 0 <= i <= removeStartingAt <= |r|
      invariant multiset(r) == multiset(adsWithBids)
      invariant forall k :: 0 <= k < i ==> Matches(currencyOf(r[k]), buyerCurrency)
      invariant forall k :: removeStartingAt <= k < |r| ==> !Matches(currencyOf(r[k]), buyerCurrency)
    {
      if currencyOf(r[i]) != "" && buyerCurrency != currencyOf(r[i]) {
        removeStartingAt := removeStartingAt - 1;
        r := r[i := r[removeStartingAt]][removeStartingAt := r[i]];
      } else {
        i := i + 1;
      }
    }
    MatchingSplit(currencyOf, buyerCurrency, r[..removeStartingAt], r[removeStartingAt..]);
    assert r == r[..removeStartingAt] + r[removeStartingAt..];
    FilterMapPermutation((ad: T) => if Matches(currencyOf(ad), buyerCurrency) then Some(ad) else None, r, adsWithBids);
    r := r[..removeStartingAt];
  }

  function FilteredResponse(response: GetBidsResponse, buyerCurrency: string): GetBidsResponse {
    GetBidsResponse(
      Matching((ad: AdWithBid) => ad.bidCurrency, buyerCurrency, response.bids),
      Matching((ad: ProtectedAppSignalsAdWithBid) => ad.bidCurrency, buyerCurrency, response.protectedAppSignalsBids))
  }

  /** Only a buyer configured with a currency is filtered. */
  function Expected(currencies: map<string, string>, buyer: string, response: GetBidsResponse): GetBidsResponse {
    if buyer in currencies && currencies[buyer] != "" then FilteredResponse(response, currencies[buyer]) else response
  }

  ghost predicate SameBids(a: GetBidsResponse, b: GetBidsResponse) {
    multiset(a.bids) == multiset(b.bids) &&
    multiset(a.protectedAppSignalsBids) == multiset(b.protectedAppSignalsBids)
  }

  lemma SameBidsSameEnabled(features: Features, a: GetBidsResponse, b: GetBidsResponse)
    requires SameBids(a, b)
    ensures HasBids(features, a) == HasBids(features, b)
  {
    assert a.bids == [] <==> |multiset(a.bids)| == 0;
    assert b.bids == [] <==> |multiset(b.bids)| == 0;
    assert a.protectedAppSignalsBids == [] <==> |multiset(a.protectedAppSignalsBids)| == 0;
    assert b.protectedAppSignalsBids == [] <==> |multiset(b.protectedAppSignalsBids)| == 0;
  }

  /** What filtering leaves of the buyers' bids, up to the order within a buyer. */
  ghost predicate Filtered(
    features: Features, currencies: map<string, string>, before: BuyerBidsResponseMap, after: BuyerBidsResponseMap)
  {
    && (forall buyer :: buyer in after <==>
          buyer in before && HasBids(features, Expected(currencies, buyer, before[buyer])))
    && (forall buyer :: buyer in after ==> SameBids(after[buyer], Expected(currencies, buyer, before[buyer])))
  }

  /** Some result meets the description: the one that keeps each buyer's order. */
  ghost function FilteredInOrder(features: Features, currencies: map<string, string>, before: BuyerBidsResponseMap)
    : (after: BuyerBidsResponseMap)
    ensures Filtered(features, currencies, before, after)
  {
    map buyer | buyer in before && HasBids(features, Expected(currencies, buyer, before[buyer])) ::
      Expected(currencies, buyer, before[buyer])
  }

  /** A bid in the currency configured for its buyer, if any, or in none. */
  predicate Own(currencies: map<string, string>, buyer: string, currency: string) {
    buyer in currencies && currencies[buyer] != "" ==> currency in {"", currencies[buyer]}
  }

  predicate HasOwnBids(
    features: Features, currencies: map<string, string>, buyer: string, response: GetBidsResponse)
  {
    || (features.protectedAudience &&
        exists ad :: ad in response.bids && Own(currencies, buyer, ad.bidCurrency))
    || (features.protectedAppSignals &&
        exists ad :: ad in response.protectedAppSignalsBids && Own(currencies, buyer, ad.bidCurrency))
  }

  /** Of both kinds, what is left of a response are its bids in the buyer's own currency, each as often as it was. */
  ghost predicate OwnBidsOf(
    currencies: map<string, string>, buyer: string, response: GetBidsResponse, left: GetBidsResponse)
  {
    && (forall ad :: multiset(left.bids)[ad] ==
          if Own(currencies, buyer, ad.bidCurrency) then multiset(response.bids)[ad] else 0)
    && (forall ad :: multiset(left.protectedAppSignalsBids)[ad] ==
          if Own(currencies, buyer, ad.bidCurrency) then multiset(response.protectedAppSignalsBids)[ad] else 0)
  }

  lemma ExpectedIsOwn(currencies: map<string, string>, buyer: string, response: GetBidsResponse)
    ensures OwnBidsOf(currencies, buyer, response, Expected(currencies, buyer, response))
  {
    if buyer in currencies && currencies[buyer] != "" {
      forall ad ensures multiset(Expected(currencies, buyer, response).bids)[ad] ==
                          if Own(currencies, buyer, ad.bidCurrency) then multiset(response.bids)[ad] else 0
      {
        MatchingCount((x: AdWithBid) => x.bidCurrency, currencies[buyer], response.bids, ad);
      }
      forall ad ensures multiset(Expected(currencies, buyer, response).protectedAppSignalsBids)[ad] ==
                          if Own(currencies, buyer, ad.bidCurrency)
                          then multiset(response.protectedAppSignalsBids)[ad] else 0
      {
        MatchingCount((x: ProtectedAppSignalsAdWithBid) => x.bidCurrency, currencies[buyer],
          response.protectedAppSignalsBids, ad);
      }
    }
  }

  lemma SomethingLeft<T>(own: T -> bool, response: seq<T>, left: seq<T>)
    requires forall ad :: multiset(left)[ad] == if own(ad) then multiset(response)[ad] else 0
    ensures left != [] <==> exists ad :: ad in response && own(ad)
  {
    if left != [] {
      assert multiset(left)[left[0]] > 0;
      assert left[0] in multiset(response);
    }
    if ad :| ad in response && own(ad) {
      assert ad in multiset(response);
      assert multiset(left)[ad] > 0;
    }
  }

  lemma OwnBidsLeft(
    features: Features, currencies: map<string, string>, buyer: string, response: GetBidsResponse,
    left: GetBidsResponse)
    requires OwnBidsOf(currencies, buyer, response, left)
    ensures HasBids(features, left) <==> HasOwnBids(features, currencies, buyer, response)
  {
    var ownAd := (ad: AdWithBid) => Own(currencies, buyer, ad.bidCurrency);
    var ownAppAd := (ad: ProtectedAppSignalsAdWithBid) => Own(currencies, buyer, ad.bidCurrency);
    SomethingLeft(ownAd, response.bids, left.bids);
    SomethingLeft(ownAppAd, response.protectedAppSignalsBids, left.protectedAppSignalsBids);
    assert forall ad :: ownAd(ad) <==> Own(currencies, buyer, ad.bidCurrency);
    assert forall ad :: ownAppAd(ad) <==> Own(currencies, buyer, ad.bidCurrency);
  }

  /** A buyer is left exactly if it made a bid of an enabled type in its own currency, and what is left of it are all
      its bids of both types in that currency, no more and no fewer. */
  lemma FilteredMeans(
    features: Features, currencies: map<string, string>, before: BuyerBidsResponseMap, after: BuyerBidsResponseMap,
    buyer: string)
    requires Filtered(features, currencies, before, after)
    ensures buyer in after <==> buyer in before && HasOwnBids(features, currencies, buyer, before[buyer])
    ensures buyer in after ==>
              OwnBidsOf(currencies, buyer, before[buyer], after[buyer]) && HasBids(features, after[buyer])
  {
    if buyer in before {
      var expected := Expected(currencies, buyer, before[buyer]);
      ExpectedIsOwn(currencies, buyer, before[buyer]);
      OwnBidsLeft(features, currencies, buyer, before[buyer], expected);
      if buyer in after {
        SameBidsSameEnabled(features, after[buyer], expected);
      }
    }
  }

  /** Both kinds of one buyer's bids. */
  method FilterBuyer(response: GetBidsResponse, buyerCurrency: string) returns (r: GetBidsResponse)
    ensures SameBids(r, FilteredResponse(response, buyerCurrency))
  {
    var bids := FilterBidsWithMismatchingCurrencyHelper(
      response.bids, (ad: AdWithBid) => ad.bidCurrency, buyerCurrency);
    var protectedAppSignalsBids := FilterBidsWithMismatchingCurrencyHelper(
      response.protectedAppSignalsBids, (ad: ProtectedAppSignalsAdWithBid) => ad.bidCurrency, buyerCurrency);
    r := GetBidsResponse(bids, protectedAppSignalsBids);
  }

  /** Every buyer but those left to look at is filtered, and any says whether one of them has bids. */
  ghost predicate FilteredBut(
    features: Features, currencies: map<string, string>, before: BuyerBidsResponseMap, left: set<string>,
    now: BuyerBidsResponseMap, any: bool)
  {
    && now.Keys == before.Keys
    && (forall buyer :: buyer in left && buyer in before ==> now[buyer] == before[buyer])
    && (forall buyer :: buyer in before && buyer !in left ==>
          SameBids(now[buyer], Expected(currencies, buyer, before[buyer])))
    && (any <==> exists buyer :: buyer in before && buyer !in left && HasBids(features, now[buyer]))
  }

  lemma FilteredOneMore(
    features: Features, currencies: map<string, string>, before: BuyerBidsResponseMap, left: set<string>,
    now: BuyerBidsResponseMap, any: bool, buyer: string, filtered: GetBidsResponse)
    requires FilteredBut(features, currencies, before, left + {buyer}, now, any)
    requires buyer in before && buyer !in left
    requires SameBids(filtered, Expected(currencies, buyer, before[buyer]))
    ensures FilteredBut(features, currencies, before, left, now[buyer := filtered], any || HasBids(features, filtered))
  {
    var next := now[buyer := filtered];
    if any {
      var other :| other in before && other !in left + {buyer} && HasBids(features, now[other]);
      assert next[other] == now[other];
    }
    if other :| other in before && other !in left && HasBids(features, next[other]) && other != buyer {
      assert now[other] == next[other] && other !in left + {buyer};
    }
  }

  /** The buyers that have a bid of an enabled type left. */
  function WithBids(features: Features, bids: BuyerBidsResponseMap): (r: BuyerBidsResponseMap)
    ensures forall buyer :: buyer in r <==> buyer in bids && HasBids(features, bids[buyer])
    ensures forall buyer :: buyer in r ==> r[buyer] == bids[buyer]
  {
    map buyer | buyer in bids && HasBids(features, bids[buyer]) :: bids[buyer]
  }

  lemma AllFiltered(
    features: Features, currencies: map<string, string>, before: BuyerBidsResponseMap, now: BuyerBidsResponseMap,
    any: bool)
    requires FilteredBut(features, currencies, before, {}, now, any)
    ensures Filtered(features, currencies, before, WithBids(features, now))
    ensures any <==> WithBids(features, now) != map[]
  {
    forall buyer | buyer in before
      ensures HasBids(features, now[buyer]) == HasBids(features, Expected(currencies, buyer, before[buyer]))
    {
      SameBidsSameEnabled(features, now[buyer], Expected(currencies, buyer, before[buyer]));
    }
    SomeBuyer(WithBids(features, now));
  }

  lemma SomeBuyer(bids: BuyerBidsResponseMap)
    ensures bids != map[] <==> exists buyer :: buyer in bids
  {
    if forall buyer :: buyer !in bids {
      assert bids.Keys == {};
    }
  }

  class BuyerBids {
    const features: Features
    const currencies: map<string, string>
    var sharedBuyerBidsMap: BuyerBidsResponseMap

    constructor (features: Features, currencies: map<string, string>, bids: BuyerBidsResponseMap)
      ensures this.features == features && this.currencies == currencies && sharedBuyerBidsMap == bids
    {
      this.features, this.currencies, sharedBuyerBidsMap := features, currencies, bids;
    }

    /** True exactly when some buyer is left. */
    method FilterBidsWithMismatchingCurrency() returns (anyValidBids: bool)
      requires sharedBuyerBidsMap != map[]
      requires forall buyer :: buyer in sharedBuyerBidsMap ==> HasBids(features, sharedBuyerBidsMap[buyer])
      modifies this
      ensures Filtered(features, currencies, old(sharedBuyerBidsMap), sharedBuyerBidsMap)
      ensures anyValidBids <==> sharedBuyerBidsMap != map[]
    {
      ghost var before := sharedBuyerBidsMap;
      anyValidBids := false;
      var left := sharedBuyerBidsMap.Keys;
      while left != {}
        invariant left <= before.Keys
        invariant FilteredBut(features, currencies, before, left, sharedBuyerBidsMap, anyValidBids)
        decreases left
      {
        var buyer :| buyer in left;
        left := left - {buyer};
        var response := sharedBuyerBidsMap[buyer];
        if buyer !in currencies || currencies[buyer] == "" {
          FilteredOneMore(features, currencies, before, left, sharedBuyerBidsMap, anyValidBids, buyer, response);
          anyValidBids := true;
        } else {
          var filtered := FilterBuyer(response, currencies[buyer]);
          FilteredOneMore(features, currencies, before, left, sharedBuyerBidsMap, anyValidBids, buyer, filtered);
          sharedBuyerBidsMap := sharedBuyerBidsMap[buyer := filtered];
          if HasBids(features, filtered) {
            anyValidBids := true;
          }
        }
      }
      AllFiltered(features, currencies, before, sharedBuyerBidsMap, anyValidBids);
      sharedBuyerBidsMap := WithBids(features, sharedBuyerBidsMap);
    }
  }
}
