/** From the k-anonymity service to the winner: what the seller front end sends and what the auction makes of it. */
module KAnonymousAuction {
  import opened Sequences
  import opened BidTypes
  import opened AuctionTypes
  import opened BuyerSelection
  import opened KAnonHashes
  import S = SelectAdReactor
  import SelectAdKAnonymity
  import A = ScoreAdsReactor
  import OtherBids

  // ---------- the ScoreAds request ----------

  /** BuildAdWithBidMetadata: without enforcement every ad is declared k-anonymous. */
  function BuildAdWithBidMetadata(enforceKAnon: bool, buyer: string, bid: AdWithBid, kAnon: bool): AdWithBidMetadata {
    ProtectedAudience(
      buyer, bid.interestGroupName, bid.bid, bid.bidCurrency, bid.render, if enforceKAnon then kAnon else true)
  }

  /** Its counterpart for app signals leaves the field unset without enforcement, which reads as false. */
  function BuildProtectedAppSignalsAdWithBidMetadata(
    enforceKAnon: bool, buyer: string, bid: ProtectedAppSignalsAdWithBid, kAnon: bool): AdWithBidMetadata
  {
    ProtectedAppSignals(buyer, bid.bid, bid.bidCurrency, bid.render, if enforceKAnon then kAnon else false)
  }

  predicate IsSent(features: Features, bids: BuyerBidsResponseMap, key: BidKey) {
    Names(bids, key) && (if key.AudienceBid? then features.protectedAudience else features.protectedAppSignals)
  }

  /** Something is sent exactly if some buyer has a bid of a type that is. */
  lemma SomethingIsSentIff(features: Features, bids: BuyerBidsResponseMap)
    ensures (exists key :: IsSent(features, bids, key)) <==>
              exists buyer :: buyer in bids && HasBids(features, bids[buyer])
  {
    if key :| IsSent(features, bids, key) {
      assert HasBids(features, bids[key.buyer]);
    }
    if buyer :| buyer in bids && HasBids(features, bids[buyer]) {
      assert IsSent(features, bids, AudienceBid(buyer, 0)) || IsSent(features, bids, AppSignalsBid(buyer, 0));
    }
  }

  /** What is sent for a bid: the bid as the buyer made it, under the buyer's name, with the status it was given. */
  ghost predicate IsMetadataOf(enforceKAnon: bool, scored: S.ScoreRequest, key: BidKey, ad: AdWithBidMetadata) {
    && Names(scored.bids, key) && ad.owner == key.buyer
    && match key
       case AudienceBid(buyer, i) =>
         var bid := scored.bids[buyer].bids[i];
         && ad.ProtectedAudience? && ad.name == bid.interestGroupName
         && ad.bid == bid.bid && ad.bidCurrency == bid.bidCurrency && ad.render == bid.render
         && (ad.kAnon <==> (enforceKAnon ==> IsKAnonymous(scored.statuses, key)))
       case AppSignalsBid(buyer, i) =>
         var bid := scored.bids[buyer].protectedAppSignalsBids[i];
         && ad.ProtectedAppSignals?
         && ad.bid == bid.bid && ad.bidCurrency == bid.bidCurrency && ad.render == bid.render
         && (ad.kAnon <==> enforceKAnon && IsKAnonymous(scored.statuses, key))
  }

  /** The ads are the metadata of exactly the bids in scope, each sent once. */
  ghost predicate AdsFor(
    enforceKAnon: bool, scored: S.ScoreRequest, scope: BidKey -> bool, keys: seq<BidKey>, ads: seq<AdWithBidMetadata>)
  {
    && |keys| == |ads| && NoDuplicates(keys)
    && (forall key: BidKey :: key in keys <==> Names(scored.bids, key) && scope(key))
    && (forall k :: 0 <= k < |keys| ==>
          Names(scored.bids, keys[k]) && IsMetadataOf(enforceKAnon, scored, keys[k], ads[k]))
  }

  lemma AdsForOneMore(
    enforceKAnon: bool, scored: S.ScoreRequest, scope: BidKey -> bool, next: BidKey -> bool, keys: seq<BidKey>,
    ads: seq<AdWithBidMetadata>, key: BidKey, ad: AdWithBidMetadata)
    requires AdsFor(enforceKAnon, scored, scope, keys, ads)
    requires IsMetadataOf(enforceKAnon, scored, key, ad) && !scope(key)
    requires forall k: BidKey :: Names(scored.bids, k) ==> (next(k) <==> scope(k) || k == key)
    ensures AdsFor(enforceKAnon, scored, next, keys + [key], ads + [ad])
  {
    assert key !in keys;
  }

  lemma AdsForMeans(
    enforceKAnon: bool, scored: S.ScoreRequest, scope: BidKey -> bool, keys: seq<BidKey>, ads: seq<AdWithBidMetadata>,
    ad: AdWithBidMetadata)
    requires AdsFor(enforceKAnon, scored, scope, keys, ads)
    ensures ad in ads <==>
              exists key :: Names(scored.bids, key) && scope(key) && IsMetadataOf(enforceKAnon, scored, key, ad)
  {
    if ad in ads {
      var k :| 0 <= k < |ads| && ads[k] == ad;
      assert keys[k] in keys;
    }
    if exists key :: Names(scored.bids, key) && scope(key) && IsMetadataOf(enforceKAnon, scored, key, ad) {
      var key :| Names(scored.bids, key) && scope(key) && IsMetadataOf(enforceKAnon, scored, key, ad);
      var k :| 0 <= k < |keys| && keys[k] == key;
      assert ads[k] == ad;
    }
  }

  /** The bids of the buyers not in left, and the first i of one more buyer. */
  ghost function AudienceScope(left: set<string>, buyer: string, i: nat): BidKey -> bool {
    (key: BidKey) => key.AudienceBid? && (key.buyer !in left || (key.buyer == buyer && key.index < i))
  }

  ghost function AppSignalsScope(left: set<string>, buyer: string, i: nat): BidKey -> bool {
    (key: BidKey) => key.AppSignalsBid? && (key.buyer !in left || (key.buyer == buyer && key.index < i))
  }

  /** The Protected Audience bids of every buyer; the keys record which bid each ad came from. */
  method AddAudienceAds(enforceKAnon: bool, scored: S.ScoreRequest)
    returns (ads: seq<AdWithBidMetadata>, ghost keys: seq<BidKey>)
    ensures AdsFor(enforceKAnon, scored, (key: BidKey) => key.AudienceBid?, keys, ads)
  {
    ads, keys := [], [];
    var left := scored.bids.Keys;
    while left != {}
      invariant left <= scored.bids.Keys
      invariant AdsFor(enforceKAnon, scored, AudienceScope(left, "", 0), keys, ads)
      decreases left
    {
      var buyer :| buyer in left;
      ghost var before := left;
      left := left - {buyer};
      var bids := scored.bids[buyer].bids;
      for i := 0 to |bids|
        invariant AdsFor(enforceKAnon, scored, AudienceScope(before, buyer, i), keys, ads)
      {
        var key := AudienceBid(buyer, i);
        var ad := BuildAdWithBidMetadata(enforceKAnon, buyer, bids[i], IsKAnonymous(scored.statuses, key));
        AdsForOneMore(
          enforceKAnon, scored, AudienceScope(before, buyer, i), AudienceScope(before, buyer, i + 1), keys, ads, key,
          ad);
        ads := ads + [ad];
        keys := keys + [key];
      }
    }
  }

  method AddAppSignalsAds(enforceKAnon: bool, scored: S.ScoreRequest)
    returns (ads: seq<AdWithBidMetadata>, ghost keys: seq<BidKey>)
    ensures AdsFor(enforceKAnon, scored, (key: BidKey) => key.AppSignalsBid?, keys, ads)
  {
    ads, keys := [], [];
    var left := scored.bids.Keys;
    while left != {}
      invariant left <= scored.bids.Keys
      invariant AdsFor(enforceKAnon, scored, AppSignalsScope(left, "", 0), keys, ads)
      decreases left
    {
      var buyer :| buyer in left;
      ghost var before := left;
      left := left - {buyer};
      var bids := scored.bids[buyer].protectedAppSignalsBids;
      for i := 0 to |bids|
        invariant AdsFor(enforceKAnon, scored, AppSignalsScope(before, buyer, i), keys, ads)
      {
        var key := AppSignalsBid(buyer, i);
        var ad := BuildProtectedAppSignalsAdWithBidMetadata(
          enforceKAnon, buyer, bids[i], IsKAnonymous(scored.statuses, key));
        AdsForOneMore(
          enforceKAnon, scored, AppSignalsScope(before, buyer, i), AppSignalsScope(before, buyer, i + 1), keys, ads,
          key, ad);
        ads := ads + [ad];
        keys := keys + [key];
      }
    }
  }

  lemma AdsForBoth(
    enforceKAnon: bool, scored: S.ScoreRequest, scope: BidKey -> bool, keys: seq<BidKey>, ads: seq<AdWithBidMetadata>,
    scope': BidKey -> bool, keys': seq<BidKey>, ads': seq<AdWithBidMetadata>, both: BidKey -> bool)
    requires AdsFor(enforceKAnon, scored, scope, keys, ads) && AdsFor(enforceKAnon, scored, scope', keys', ads')
    requires forall key :: !(scope(key) && scope'(key))
    requires forall key :: Names(scored.bids, key) ==> (both(key) <==> scope(key) || scope'(key))
    ensures AdsFor(enforceKAnon, scored, both, keys + keys', ads + ads')
  {
    NoDuplicatesConcat(keys, keys');
    var allKeys, allAds := keys + keys', ads + ads';
    forall k | 0 <= k < |allKeys|
      ensures Names(scored.bids, allKeys[k]) && IsMetadataOf(enforceKAnon, scored, allKeys[k], allAds[k])
    {
      if k < |keys| {
        assert allKeys[k] == keys[k] && allAds[k] == ads[k];
      } else {
        assert allKeys[k] == keys'[k - |keys|] && allAds[k] == ads'[k - |keys|];
      }
    }
    assert forall key :: key in allKeys <==> key in keys || key in keys';
  }

  ghost function SentScope(features: Features, bids: BuyerBidsResponseMap): BidKey -> bool {
    (key: BidKey) => IsSent(features, bids, key)
  }

  /** Both lists, each only if its feature is on; app signals bids are added by the app's reactor. Every bid that is to
      be sent is sent exactly once. */
  method CreateScoreAdsRequest(features: Features, enforceKAnon: bool, scored: S.ScoreRequest)
    returns (audienceAds: seq<AdWithBidMetadata>, appSignalsAds: seq<AdWithBidMetadata>, ghost keys: seq<BidKey>)
    ensures AdsFor(enforceKAnon, scored, SentScope(features, scored.bids), keys, audienceAds + appSignalsAds)
    ensures forall ad :: ad in audienceAds + appSignalsAds <==>
              exists key :: IsSent(features, scored.bids, key) && IsMetadataOf(enforceKAnon, scored, key, ad)
  {
    audienceAds, appSignalsAds := [], [];
    ghost var audienceKeys, appSignalsKeys := [], [];
    if features.protectedAudience {
      audienceAds, audienceKeys := AddAudienceAds(enforceKAnon, scored);
    }
    if features.protectedAppSignals {
      appSignalsAds, appSignalsKeys := AddAppSignalsAds(enforceKAnon, scored);
    }
    keys := audienceKeys + appSignalsKeys;
    AdsForBoth(enforceKAnon, scored,
      (key: BidKey) => features.protectedAudience && key.AudienceBid?, audienceKeys, audienceAds,
      (key: BidKey) => features.protectedAppSignals && key.AppSignalsBid?, appSignalsKeys, appSignalsAds,
      SentScope(features, scored.bids));
    forall ad ensures ad in audienceAds + appSignalsAds <==>
                        exists key :: IsSent(features, scored.bids, key) && IsMetadataOf(enforceKAnon, scored, key, ad)
    {
      AdsForMeans(enforceKAnon, scored, SentScope(features, scored.bids), keys, audienceAds + appSignalsAds, ad);
    }
  }

  // ---------- the winner ----------

  /** Everything the auction dispatched was in the request. */
  ghost predicate DispatchedFrom(features: Features, scored: S.ScoreRequest, dispatched: OtherBids.Dispatched) {
    forall id :: dispatched.Knows(id) ==>
      exists key :: IsSent(features, scored.bids, key) && IsMetadataOf(true, scored, key, dispatched.Ad(id))
  }

  /** Enforced by both servers, a winner is a bid whose every hash the service declared k-anonymous, in whatever order
      the callbacks came; a ghost winner is a bid of which the service did not know some hash. */
  lemma WinnerIsKAnonymous(
    cfg: S.Config, request: Request, run: Run, t: S.Trace, s: S.State, scored: S.ScoreRequest,
    config: A.Config, auctionRun: A.Run, winner: Option<A.Winner>, ghostWinners: seq<ScoredAd>)
    requires IsRun(request, run) && cfg.enforceKAnon && config.enforceKAnon
    requires S.Reaches(cfg, run, t, s) && scored in s.scoreRequests
    requires DispatchedFrom(cfg.ScoredTypes(), scored, auctionRun.dispatched)
    requires A.IsOutcome(config, auctionRun, winner, ghostWinners)
    ensures var answer := s.lookups.answer;
      && (winner.Some? ==>
            && answer.Some?
            && exists key ::
              && IsSent(cfg.ScoredTypes(), scored.bids, key)
              && auctionRun.dispatched.Knows(winner.value.ad.id)
              && IsMetadataOf(true, scored, key, auctionRun.dispatched.Ad(winner.value.ad.id))
              && KnowsAll(cfg.hashing, scored.bids, key, answer.value))
      && (forall g :: g in ghostWinners ==>
            exists key ::
              && IsSent(cfg.ScoredTypes(), scored.bids, key)
              && auctionRun.dispatched.Knows(g.id)
              && IsMetadataOf(true, scored, key, auctionRun.dispatched.Ad(g.id))
              && !(answer.Some? && KnowsAll(cfg.hashing, scored.bids, key, answer.value)))
  {
    forall key: BidKey
      ensures IsKAnonymous(scored.statuses, key) <==>
                var answer := s.lookups.answer;
                answer.Some? && KnowsAll(cfg.hashing, scored.bids, key, answer.value)
    {
      SelectAdKAnonymity.ScoredStatusesComeFromTheService(cfg, request, run, t, s, scored, key);
    }
  }

  /** A lookup that failed, or was never made, leaves the auction without a winner. */
  lemma NoAnswerNoWinner(
    cfg: S.Config, request: Request, run: Run, t: S.Trace, s: S.State, scored: S.ScoreRequest,
    config: A.Config, auctionRun: A.Run, winner: Option<A.Winner>, ghostWinners: seq<ScoredAd>)
    requires IsRun(request, run) && cfg.enforceKAnon && config.enforceKAnon
    requires S.Reaches(cfg, run, t, s) && scored in s.scoreRequests
    requires DispatchedFrom(cfg.ScoredTypes(), scored, auctionRun.dispatched)
    requires A.IsOutcome(config, auctionRun, winner, ghostWinners)
    requires s.lookups.answer == None
    ensures winner == None
  {
    WinnerIsKAnonymous(cfg, request, run, t, s, scored, config, auctionRun, winner, ghostWinners);
  }

  lemma RequestIsDispatched(
    features: Features, scored: S.ScoreRequest, ads: seq<AdWithBidMetadata>, dispatched: OtherBids.Dispatched)
    requires forall ad :: ad in ads ==>
               exists key :: IsSent(features, scored.bids, key) && IsMetadataOf(true, scored, key, ad)
    requires forall id :: dispatched.Knows(id) ==> dispatched.Ad(id) in ads
    ensures DispatchedFrom(features, scored, dispatched)
  {
  }

  /** The scoring server's view of the seller's request; ids beyond those given stand for requests not built. */
  method BuildEnvironment(
    cfg: S.Config, scored: S.ScoreRequest, perBuyerConfig: set<string>, env: A.Environment,
    audienceIds: seq<Option<string>>, appSignalsIds: seq<Option<string>>)
    returns (actual: A.Environment)
    requires cfg.enforceKAnon
    ensures |actual.protectedAudienceIds| == |actual.protectedAudienceAds|
    ensures |actual.protectedAppSignalsIds| == |actual.protectedAppSignalsAds|
    ensures actual.responses == env.responses && actual.perBuyerSignals == perBuyerConfig
    ensures forall ad :: ad in actual.protectedAudienceAds + actual.protectedAppSignalsAds ==>
              exists key :: IsSent(cfg.ScoredTypes(), scored.bids, key) && IsMetadataOf(true, scored, key, ad)
  {
    ghost var keys;
    var audienceAds, appSignalsAds;
    audienceAds, appSignalsAds, keys := CreateScoreAdsRequest(cfg.ScoredTypes(), true, scored);
    var audience := seq(|audienceAds|, k requires 0 <= k => if k < |audienceIds| then audienceIds[k] else None);
    var appSignals :=
      seq(|appSignalsAds|, k requires 0 <= k => if k < |appSignalsIds| then appSignalsIds[k] else None);
    actual := env.(
      protectedAudienceAds := audienceAds, protectedAudienceIds := audience,
      protectedAppSignalsAds := appSignalsAds, protectedAppSignalsIds := appSignals,
      perBuyerSignals := perBuyerConfig);
  }

  /** An abort is due to a failed response, or to a buyer without an entry in the seller's auction configuration. */
  lemma AbortMeans(
    features: Features, scored: S.ScoreRequest, config: A.Config, env: A.Environment, run: A.Run,
    winner: Option<A.Winner>, ghostWinners: seq<ScoredAd>)
    requires winner == None ==> A.SomeChoiceAborts(config, run)
    requires winner.Some? ==>
               && DispatchedFrom(features, scored, run.dispatched)
               && A.IsOutcome(config, run, winner, ghostWinners) && A.ReportAborts(config, env, winner.value.ad)
    ensures || (exists response :: response in run.responses && response.ExecutionFailed?)
            || !(scored.bids.Keys <= env.perBuyerSignals)
  {
    if winner == None {
      if forall response :: response in run.responses ==> !response.ExecutionFailed? {
        A.NoFailedResponseNoAbort(config, run);
      }
    } else {
      var ad := winner.value.ad;
      assert A.Traces(config.enforceKAnon, run.dispatched, ad);
      var key :| IsSent(features, scored.bids, key) && IsMetadataOf(true, scored, key, run.dispatched.Ad(ad.id));
      assert ad.score.owner in scored.bids.Keys;
    }
  }

  /** A whole auction: the request is built, and the scoring reactor runs on it to its end. */
  method RunAuction(
    cfg: S.Config, scored: S.ScoreRequest, perBuyerConfig: set<string>, config: A.Config, env: A.Environment,
    audienceIds: seq<Option<string>>, appSignalsIds: seq<Option<string>>)
    returns (reactor: A.ScoreAdsReactor)
    requires cfg.enforceKAnon && config.enforceKAnon && !config.auction.scope.TopLevel?
    ensures fresh(reactor) && reactor.Ended() && reactor.config == config
    ensures reactor.Concluded()
    ensures reactor.log[|reactor.log| - 1] == A.ProcessAborted ==>
              || (exists response :: response in env.responses && response.ExecutionFailed?)
              || !(scored.bids.Keys <= perBuyerConfig)
    ensures reactor.log[|reactor.log| - 1] != A.ProcessAborted &&
            (reactor.winner.Some? || reactor.ghostWinners != []) ==>
              && DispatchedFrom(cfg.ScoredTypes(), scored, reactor.dispatched)
              && A.IsOutcome(config, A.Run(reactor.dispatched, env.responses), reactor.winner, reactor.ghostWinners)
  {
    var actual := BuildEnvironment(cfg, scored, perBuyerConfig, env, audienceIds, appSignalsIds);
    reactor := new A.ScoreAdsReactor(config, actual);
    reactor.Execute();
    hide A.IsOutcome, A.ReportAborts, A.SomeChoiceAborts, A.ScoreAdsReactor.Concluded, IsSent, IsMetadataOf;
    reactor.ConcludedSelects();
    var aborted := reactor.log[|reactor.log| - 1] == A.ProcessAborted;
    if reactor.winner.Some? || (reactor.ghostWinners != [] && !aborted) {
      RequestIsDispatched(cfg.ScoredTypes(), scored, actual.protectedAudienceAds + actual.protectedAppSignalsAds,
        reactor.dispatched);
    }
    if aborted {
      AbortMeans(cfg.ScoredTypes(), scored, config, actual, A.Run(reactor.dispatched, env.responses), reactor.winner,
        reactor.ghostWinners);
    }
  }
}
