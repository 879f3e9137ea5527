/** The k-anonymity hashes of each bid, and the status the service's answer gives it. */
module KAnonHashes {
  import opened Sequences
  import opened BidTypes

  /** The hash functions, left uninterpreted. */
  datatype HashUtil = HashUtil(
    adRenderUrl: (string, string, string) -> string,
    reportingId: (string, string, string, string, ReportingIds) -> string,
    adComponentRenderUrl: string -> string)

  /** A bid's address in the buyers' responses. */
  datatype BidKey = AudienceBid(buyer: string, index: nat) | AppSignalsBid(buyer: string, index: nat)

  /** Hashing function, report-win URL of each buyer, and whether the client is an app. */
  datatype Hashing = Hashing(util: HashUtil, reportWinUrls: map<string, string>, forApp: bool)

  type HashSets = map<BidKey, set<string>>

  predicate Names(bids: BuyerBidsResponseMap, key: BidKey) {
    key.buyer in bids &&
    match key
    case AudienceBid(buyer, i) => i < |bids[buyer].bids|
    case AppSignalsBid(buyer, i) => i < |bids[buyer].protectedAppSignalsBids|
  }

  /** Bids that are looked up at all: the others stay non-k-anonymous. */
  predicate IsHashed(h: Hashing, bids: BuyerBidsResponseMap, key: BidKey) {
    Names(bids, key) && key.buyer in h.reportWinUrls && (key.AudienceBid? || h.forApp)
  }

  function AudienceHashes(h: Hashing, buyer: string, bid: AdWithBid): set<string>
    requires buyer in h.reportWinUrls
  {
    {h.util.adRenderUrl(buyer, h.reportWinUrls[buyer], bid.render),
     h.util.reportingId(buyer, bid.interestGroupName, h.reportWinUrls[buyer], bid.render, bid.reportingIds)} +
    (set c | c in bid.adComponents :: h.util.adComponentRenderUrl(c))
  }

  function AppSignalsHashes(h: Hashing, buyer: string, bid: ProtectedAppSignalsAdWithBid): set<string>
    requires buyer in h.reportWinUrls
  {
    {h.util.adRenderUrl(buyer, h.reportWinUrls[buyer], bid.render)}
  }

  /** A hash of a bid: of its render URL under its buyer's report-win URL; and for Protected Audience also of its
      reporting ids, and of each of its components' render URLs. */
  ghost predicate IsHashOf(h: Hashing, bids: BuyerBidsResponseMap, key: BidKey, hash: string)
    requires IsHashed(h, bids, key)
  {
    var buyer, url := key.buyer, h.reportWinUrls[key.buyer];
    match key
    case AppSignalsBid(_, i) => hash == h.util.adRenderUrl(buyer, url, bids[buyer].protectedAppSignalsBids[i].render)
    case AudienceBid(_, i) =>
      var bid := bids[buyer].bids[i];
      || hash == h.util.adRenderUrl(buyer, url, bid.render)
      || hash == h.util.reportingId(buyer, bid.interestGroupName, url, bid.render, bid.reportingIds)
      || exists c :: c in bid.adComponents && hash == h.util.adComponentRenderUrl(c)
  }

  function HashesOf(h: Hashing, bids: BuyerBidsResponseMap, key: BidKey): (hashes: set<string>)
    requires IsHashed(h, bids, key)
    ensures forall hash :: hash in hashes <==> IsHashOf(h, bids, key, hash)
  {
    match key
    case AudienceBid(buyer, i) => AudienceHashes(h, buyer, bids[buyer].bids[i])
    case AppSignalsBid(buyer, i) => AppSignalsHashes(h, buyer, bids[buyer].protectedAppSignalsBids[i])
  }

  /** The service knows everything about the bid that must be k-anonymous. */
  ghost predicate KnowsAll(h: Hashing, bids: BuyerBidsResponseMap, key: BidKey, known: set<string>) {
    && IsHashed(h, bids, key)
    && var buyer, url := key.buyer, h.reportWinUrls[key.buyer];
       match key
       case AppSignalsBid(_, i) =>
         h.util.adRenderUrl(buyer, url, bids[buyer].protectedAppSignalsBids[i].render) in known
       case AudienceBid(_, i) =>
         var bid := bids[buyer].bids[i];
         && h.util.adRenderUrl(buyer, url, bid.render) in known
         && h.util.reportingId(buyer, bid.interestGroupName, url, bid.render, bid.reportingIds) in known
         && forall c :: c in bid.adComponents ==> h.util.adComponentRenderUrl(c) in known
  }

  /** Knowing all hashes of a bid is knowing each of the things they are made of. */
  lemma KnowsAllIff(h: Hashing, bids: BuyerBidsResponseMap, key: BidKey, known: set<string>)
    requires IsHashed(h, bids, key)
    ensures HashesOf(h, bids, key) <= known <==> KnowsAll(h, bids, key, known)
  {
    assert forall hash :: hash in HashesOf(h, bids, key) <==> IsHashOf(h, bids, key, hash);
  }

  /** Which keys are present, and what is stored under them, both restricted to the keys in scope. */
  ghost predicate HashedExactly(h: Hashing, bids: BuyerBidsResponseMap, scope: BidKey -> bool, sets: HashSets) {
    && (forall key: BidKey :: key in sets <==> IsHashed(h, bids, key) && scope(key))
    && (forall key: BidKey :: key in sets ==> sets[key] == HashesOf(h, bids, key))
  }

  method HashAd(h: Hashing, buyer: string, bid: AdWithBid) returns (hashes: set<string>)
    requires buyer in h.reportWinUrls
    ensures hashes == AudienceHashes(h, buyer, bid)
  {
    hashes := {h.util.adRenderUrl(buyer, h.reportWinUrls[buyer], bid.render)};
    hashes := hashes +
      {h.util.reportingId(buyer, bid.interestGroupName, h.reportWinUrls[buyer], bid.render, bid.reportingIds)};
    ghost var first := hashes;
    for i := 0 to |bid.adComponents|
      invariant hashes == first + (set c | c in bid.adComponents[..i] :: h.util.adComponentRenderUrl(c))
    {
      assert bid.adComponents[..i + 1] == bid.adComponents[..i] + [bid.adComponents[i]];
      hashes := hashes + {h.util.adComponentRenderUrl(bid.adComponents[i])};
    }
    assert bid.adComponents[..|bid.adComponents|] == bid.adComponents;
  }

  method AddAudienceBids(h: Hashing, bids: BuyerBidsResponseMap, buyer: string, before: HashSets)
    returns (sets: HashSets)
    requires buyer in bids && buyer in h.reportWinUrls
    ensures forall key: BidKey :: key in sets <==>
              key in before || (key.AudienceBid? && key.buyer == buyer && key.index < |bids[buyer].bids|)
    ensures forall key: BidKey :: key in sets ==>
              sets[key] == if key.AudienceBid? && key.buyer == buyer && key.index < |bids[buyer].bids|
                           then HashesOf(h, bids, key) else before[key]
  {
    sets := before;
    for i := 0 to |bids[buyer].bids|
      invariant forall key: BidKey :: key in sets <==>
                  key in before || (key.AudienceBid? && key.buyer == buyer && key.index < i)
      invariant forall key: BidKey :: key in sets ==>
                  sets[key] == if key.AudienceBid? && key.buyer == buyer && key.index < i
                               then HashesOf(h, bids, key) else before[key]
    {
      var hashes := HashAd(h, buyer, bids[buyer].bids[i]);
      sets := sets[AudienceBid(buyer, i) := hashes];
    }
  }

  /** One more buyer's Protected Audience bids have been added, if there is a URL to hash them under. */
  lemma AudienceBuyerAdded(
    h: Hashing, bids: BuyerBidsResponseMap, left: set<string>, buyer: string, before: HashSets, sets: HashSets)
    requires HashedExactly(h, bids, (key: BidKey) => key.AudienceBid? && key.buyer !in left, before)
    requires buyer in left && buyer in bids
    requires forall key: BidKey :: key in sets <==>
               key in before ||
               (key.AudienceBid? && key.buyer == buyer && key.index < |bids[buyer].bids| && buyer in h.reportWinUrls)
    requires forall key: BidKey :: key in sets ==>
               sets[key] == if key.AudienceBid? && key.buyer == buyer && key.index < |bids[buyer].bids| &&
                               buyer in h.reportWinUrls
                            then HashesOf(h, bids, key) else before[key]
    ensures HashedExactly(h, bids, (key: BidKey) => key.AudienceBid? && key.buyer !in left - {buyer}, sets)
  {
    hide IsHashOf, HashesOf;
  }

  /** For the browser: Protected Audience bids only. */
  method GetKAnonHashesForBrowserBids(h: Hashing, bids: BuyerBidsResponseMap) returns (sets: HashSets)
    ensures HashedExactly(h, bids, (key: BidKey) => key.AudienceBid?, sets)
  {
    sets := map[];
    var left := bids.Keys;
    while left != {}
      invariant left <= bids.Keys
      invariant HashedExactly(h, bids, (key: BidKey) => key.AudienceBid? && key.buyer !in left, sets)
      decreases left
    {
      var buyer :| buyer in left;
      ghost var before, was := sets, left;
      left := left - {buyer};
      if bids[buyer].bids != [] && buyer in h.reportWinUrls {
        sets := AddAudienceBids(h, bids, buyer, sets);
      }
      AudienceBuyerAdded(h, bids, was, buyer, before, sets);
    }
  }

  method AddAppSignalsBids(h: Hashing, bids: BuyerBidsResponseMap, buyer: string, before: HashSets)
    returns (sets: HashSets)
    requires buyer in bids && buyer in h.reportWinUrls && h.forApp
    ensures forall key: BidKey :: key in sets <==>
              key in before ||
              (key.AppSignalsBid? && key.buyer == buyer && key.index < |bids[buyer].protectedAppSignalsBids|)
    ensures forall key: BidKey :: key in sets ==>
              sets[key] == if key.AppSignalsBid? && key.buyer == buyer &&
                              key.index < |bids[buyer].protectedAppSignalsBids|
                           then HashesOf(h, bids, key) else before[key]
  {
    sets := before;
    var appSignalsBids := bids[buyer].protectedAppSignalsBids;
    for i := 0 to |appSignalsBids|
      invariant forall key: BidKey :: key in sets <==>
                  key in before || (key.AppSignalsBid? && key.buyer == buyer && key.index < i)
      invariant forall key: BidKey :: key in sets ==>
                  sets[key] == if key.AppSignalsBid? && key.buyer == buyer && key.index < i
                               then HashesOf(h, bids, key) else before[key]
    {
      var hashes := {h.util.adRenderUrl(buyer, h.reportWinUrls[buyer], appSignalsBids[i].render)};
      sets := sets[AppSignalsBid(buyer, i) := hashes];
    }
  }

  ghost predicate AllHashed(h: Hashing, bids: BuyerBidsResponseMap, sets: HashSets) {
    HashedExactly(h, bids, (key: BidKey) => true, sets)
  }

  ghost function BidKeys(bids: BuyerBidsResponseMap): set<BidKey> {
    (set buyer, i | buyer in bids && 0 <= i < |bids[buyer].bids| :: AudienceBid(buyer, i)) +
    (set buyer, i | buyer in bids && 0 <= i < |bids[buyer].protectedAppSignalsBids| :: AppSignalsBid(buyer, i))
  }

  lemma BidKeysAreNames(bids: BuyerBidsResponseMap, key: BidKey)
    ensures key in BidKeys(bids) <==> Names(bids, key)
  {
  }

  /** The one map that AllHashed describes. */
  ghost function HashSetsFor(h: Hashing, bids: BuyerBidsResponseMap): HashSets {
    map key | key in BidKeys(bids) && IsHashed(h, bids, key) :: HashesOf(h, bids, key)
  }

  lemma HashSetsExist(h: Hashing, bids: BuyerBidsResponseMap)
    ensures AllHashed(h, bids, HashSetsFor(h, bids))
  {
    forall key: BidKey ensures key in BidKeys(bids) <==> Names(bids, key) {
      BidKeysAreNames(bids, key);
    }
  }

  /** One more buyer's bids have been added. */
  lemma AppSignalsBuyerAdded(
    h: Hashing, bids: BuyerBidsResponseMap, left: set<string>, buyer: string, before: HashSets, sets: HashSets)
    requires HashedExactly(h, bids, (key: BidKey) => key.AudienceBid? || key.buyer !in left, before)
    requires buyer in left && buyer in bids && h.forApp
    requires forall key: BidKey :: key in sets <==>
               key in before ||
               (key.AppSignalsBid? && key.buyer == buyer && key.index < |bids[buyer].protectedAppSignalsBids| &&
                buyer in h.reportWinUrls)
    requires forall key: BidKey :: key in sets ==>
               sets[key] == if key.AppSignalsBid? && key.buyer == buyer &&
                               key.index < |bids[buyer].protectedAppSignalsBids| && buyer in h.reportWinUrls
                            then HashesOf(h, bids, key) else before[key]
    ensures HashedExactly(h, bids, (key: BidKey) => key.AudienceBid? || key.buyer !in left - {buyer}, sets)
  {
  }

  /** For an app: the Protected App Signals bids as well. */
  method GetKAnonHashesForBids(h: Hashing, bids: BuyerBidsResponseMap) returns (sets: HashSets)
    ensures AllHashed(h, bids, sets)
  {
    sets := GetKAnonHashesForBrowserBids(h, bids);
    if h.forApp {
      var left := bids.Keys;
      while left != {}
        invariant left <= bids.Keys
        invariant HashedExactly(h, bids, (key: BidKey) => key.AudienceBid? || key.buyer !in left, sets)
        decreases left
      {
        var buyer :| buyer in left;
        ghost var before, was := sets, left;
        left := left - {buyer};
        if bids[buyer].protectedAppSignalsBids != [] && buyer in h.reportWinUrls {
          sets := AddAppSignalsBids(h, bids, buyer, sets);
        }
        AppSignalsBuyerAdded(h, bids, was, buyer, before, sets);
      }
    }
  }

  // ---------- the status of each bid ----------

  type Statuses = map<BidKey, bool>

  function StatusesFor(enforce: bool, sets: HashSets, queriedHashes: set<string>): Statuses {
    map key | key in sets :: !enforce || sets[key] <= queriedHashes
  }

  /** operator[] of the status map: a bid without an entry reads as false. */
  predicate IsKAnonymous(statuses: Statuses, key: BidKey) {
    key in statuses && statuses[key]
  }

  method HashesAreKnown(hashes: set<string>, queriedHashes: set<string>) returns (known: bool)
    ensures known <==> hashes <= queriedHashes
  {
    known := true;
    var left := hashes;
    while left != {}
      invariant left <= hashes
      invariant known && hashes - left <= queriedHashes
      decreases left
    {
      var hash :| hash in left;
      if hash !in queriedHashes {
        return false;
      }
      left := left - {hash};
    }
  }

  method PopulateKAnonStatusForBids(enforce: bool, sets: HashSets, queriedHashes: set<string>)
    returns (statuses: Statuses)
    ensures statuses == StatusesFor(enforce, sets, queriedHashes)
  {
    statuses := map[];
    var left := sets.Keys;
    while left != {}
      invariant left <= sets.Keys && statuses.Keys == sets.Keys - left
      invariant forall key :: key in statuses ==> statuses[key] == (!enforce || sets[key] <= queriedHashes)
      decreases left
    {
      var key :| key in left;
      left := left - {key};
      var known := true;
      if enforce {
        known := HashesAreKnown(sets[key], queriedHashes);
      }
      statuses := statuses[key := known];
    }
  }

  /** A bid is k-anonymous iff it was looked up and, where that is enforced, the service knows all there is to know. */
  lemma KAnonymousIff(
    enforce: bool, h: Hashing, bids: BuyerBidsResponseMap, sets: HashSets, known: set<string>, key: BidKey)
    requires AllHashed(h, bids, sets)
    ensures IsKAnonymous(StatusesFor(enforce, sets, known), key) <==>
              IsHashed(h, bids, key) && (enforce ==> KnowsAll(h, bids, key, known))
  {
    if IsHashed(h, bids, key) {
      KnowsAllIff(h, bids, key, known);
    }
  }

  /** Every bid that is looked up has a hash, so a service that answers nothing makes no bid k-anonymous. */
  lemma NothingKnownNothingKAnonymous(h: Hashing, bids: BuyerBidsResponseMap, sets: HashSets, key: BidKey)
    requires AllHashed(h, bids, sets)
    ensures !IsKAnonymous(StatusesFor(true, sets, {}), key)
  {
    KAnonymousIff(true, h, bids, sets, {}, key);
  }
}
