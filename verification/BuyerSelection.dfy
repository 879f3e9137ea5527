/** SelectAdReactor::FetchBids: which buyers are asked, for real or as chaff, under the cap and on a replay. */
module BuyerSelection {
  import opened Sequences

  const MIN_CHAFF_REQUESTS: nat := 1
  const MIN_CHAFF_REQUESTS_WITH_NO_REAL_REQUESTS: nat := 2
  const MAX_BUYERS_SOLICITED_CHAFFING_ENABLED: nat := 15

  datatype InvokedBuyers = InvokedBuyers(chaffBuyerNames: seq<string>, nonChaffBuyerNames: seq<string>)

  /** What decides the selection; invokedBuyers is the cache entry found for the request, if any. */
  datatype Request = Request(
    configuredBuyers: seq<string>,
    auctionBuyers: set<string>,
    buyerInputs: set<string>,
    chaffingEnabled: bool,
    hasGenerator: bool,
    hasInvokedBuyersCache: bool,
    invokedBuyers: Option<InvokedBuyers>,
    maxBuyersSolicitedFlag: nat)
  {
    /** The configured buyers are the entries of one map; the cache is read only when chaffing is on. */
    ghost predicate Valid() {
      NoDuplicates(configuredBuyers) &&
      (invokedBuyers.Some? ==> chaffingEnabled && hasInvokedBuyersCache)
    }

    function MaxBuyersSolicited(): nat {
      if chaffingEnabled then MAX_BUYERS_SOLICITED_CHAFFING_ENABLED else maxBuyersSolicitedFlag
    }

    /** Configured, named by the auction, and present in the ciphertext. */
    function RealBuyers(): seq<string> {
      KeepIf(b => b in auctionBuyers && b in buyerInputs, configuredBuyers)
    }

    /** Configured and named by the auction, but absent from the ciphertext. */
    function ChaffCandidates(): seq<string> {
      KeepIf(b => b in auctionBuyers && b !in buyerInputs, configuredBuyers)
    }
  }

  // ---------- random choices ----------

  /** Any value in the range. */
  method UniformIntDistribution(lo: nat, hi: nat) returns (n: nat)
    requires lo <= hi
    ensures lo <= n <= hi
  {
    var any: int := *;
    n := if lo <= any <= hi then any else lo;
  }

  /** Any order. */
  method Shuffle<T>(s: seq<T>) returns (r: seq<T>)
    ensures multiset(r) == multiset(s)
  {
    r := s;
    for i := 0 to |s|
      invariant |r| == |s| && multiset(r) == multiset(s)
    {
      var j := UniformIntDistribution(i, |s| - 1);
      SwapIsPermutation(r, i, j);
      r := r[i := r[j]][j := r[i]];
    }
  }

  // ---------- the chaffing configuration ----------

  datatype ChaffingConfig = ChaffingConfig(
    chaffRequestCandidates: seq<string>, numChaffRequests: nat, numRealRequests: nat)

  /** The fewest chaff requests a first run with a generator may send. */
  function ChaffLowerBound(request: Request): nat {
    Min(if |request.RealBuyers()| == 0 then MIN_CHAFF_REQUESTS_WITH_NO_REAL_REQUESTS else MIN_CHAFF_REQUESTS,
      |request.ChaffCandidates()|)
  }

  method SplitConfiguredBuyers(request: Request) returns (candidates: seq<string>, numReal: nat)
    ensures candidates == request.ChaffCandidates()
    ensures numReal == |request.RealBuyers()|
  {
    candidates, numReal := [], 0;
    ghost var reals := [];
    var s := request.configuredBuyers;
    for i := 0 to |s|
      invariant candidates ==
        KeepIf(b => b in request.auctionBuyers && b !in request.buyerInputs, s[..i])
      invariant reals ==
        KeepIf(b => b in request.auctionBuyers && b in request.buyerInputs, s[..i])
      invariant numReal == |reals|
    {
      assert s[..i + 1] == s[..i] + [s[i]];
      KeepIfSnoc(b => b in request.auctionBuyers && b !in request.buyerInputs, s[..i], s[i]);
      KeepIfSnoc(b => b in request.auctionBuyers && b in request.buyerInputs, s[..i], s[i]);
      if s[i] in request.auctionBuyers {
        if s[i] !in request.buyerInputs {
          candidates := candidates + [s[i]];
        } else {
          numReal := numReal + 1;
          reals := reals + [s[i]];
        }
      }
    }
    assert s[..|s|] == s;
  }

  /** Without a cache entry the candidates come shuffled, and their number is random within its bounds. */
  ghost predicate FreshConfig(request: Request, config: ChaffingConfig) {
    if !request.chaffingEnabled then config == ChaffingConfig([], 0, |request.RealBuyers()|)
    else
      && multiset(config.chaffRequestCandidates) == multiset(request.ChaffCandidates())
      && config.numRealRequests == |request.RealBuyers()|
      && config.numChaffRequests <= |config.chaffRequestCandidates|
      && (if request.hasGenerator then ChaffLowerBound(request) <= config.numChaffRequests
          else config.numChaffRequests == 0)
  }

  method GetChaffingConfig(request: Request) returns (config: ChaffingConfig)
    requires request.Valid()
    ensures match request.invokedBuyers
            case None => FreshConfig(request, config)
            case Some(invoked) =>
              config == ChaffingConfig(
                          invoked.chaffBuyerNames, |invoked.chaffBuyerNames|, |invoked.nonChaffBuyerNames|)
  {
    var candidates, numReal := SplitConfiguredBuyers(request);
    if !request.chaffingEnabled {
      return ChaffingConfig([], 0, numReal);
    }
    if request.hasInvokedBuyersCache && request.invokedBuyers.Some? {
      var invoked := request.invokedBuyers.value;
      return ChaffingConfig(invoked.chaffBuyerNames, |invoked.chaffBuyerNames|, |invoked.nonChaffBuyerNames|);
    }
    var numChaff := 0;
    if candidates != [] {
      var lowerBound := MIN_CHAFF_REQUESTS;
      if numReal == 0 {
        lowerBound := MIN_CHAFF_REQUESTS_WITH_NO_REAL_REQUESTS;
      }
      lowerBound := Min(lowerBound, |candidates|);
      if request.hasGenerator {
        numChaff := UniformIntDistribution(lowerBound, |candidates|);
      }
    }
    if request.hasGenerator {
      candidates := Shuffle(candidates);
    }
    SameLength(candidates, request.ChaffCandidates());
    config := ChaffingConfig(candidates, numChaff, numReal);
  }

  /** The configured buyers that are no chaff candidates, are named by the auction and have an input. */
  method GetNonChaffBuyerNames(request: Request, config: ChaffingConfig) returns (names: seq<string>)
    requires request.chaffingEnabled ==> forall b :: b in config.chaffRequestCandidates ==> b !in request.buyerInputs
    ensures names == request.RealBuyers()
  {
    names := [];
    var s := request.configuredBuyers;
    for i := 0 to |s|
      invariant names ==
        KeepIf(b => b in request.auctionBuyers && b in request.buyerInputs, s[..i])
    {
      assert s[..i + 1] == s[..i] + [s[i]];
      KeepIfSnoc(b => b in request.auctionBuyers && b in request.buyerInputs, s[..i], s[i]);
      if request.chaffingEnabled && s[i] in config.chaffRequestCandidates {
        continue;
      }
      if s[i] !in request.auctionBuyers {
        continue;
      }
      if s[i] !in request.buyerInputs {
        continue;
      }
      names := names + [s[i]];
    }
    assert s[..|s|] == s;
  }

  // ---------- the requests ----------

  datatype BidRequest = BidRequest(buyer: string, isChaff: bool)

  function RealOf(r: BidRequest): Option<string> {
    if r.isChaff then None else Some(r.buyer)
  }

  function ChaffOf(r: BidRequest): Option<string> {
    if r.isChaff then Some(r.buyer) else None
  }

  function RealsOf(requests: seq<BidRequest>): seq<string> {
    FilterMap(RealOf, requests)
  }

  function ChaffsOf(requests: seq<BidRequest>): seq<string> {
    FilterMap(ChaffOf, requests)
  }

  lemma {:induction false} RealsAndChaffsPartition(requests: seq<BidRequest>)
    ensures |RealsOf(requests)| + |ChaffsOf(requests)| == |requests|
  {
    if requests != [] {
      RealsAndChaffsPartition(requests[1..]);
    }
  }

  lemma SamePartsOfPermutation(a: seq<BidRequest>, b: seq<BidRequest>)
    requires multiset(a) == multiset(b)
    ensures multiset(RealsOf(a)) == multiset(RealsOf(b)) && multiset(ChaffsOf(a)) == multiset(ChaffsOf(b))
  {
    FilterMapPermutation(RealOf, a, b);
    FilterMapPermutation(ChaffOf, a, b);
  }

  /** What one call of FetchBids does; a skipped request completes its task at once. */
  datatype Run = Run(
    tracked: nat, requests: seq<BidRequest>, solicited: seq<BidRequest>, skipped: nat, cached: Option<InvokedBuyers>)

  /** No real request comes after a chaff request. */
  predicate RealsFirst(requests: seq<BidRequest>) {
    forall i, j :: 0 <= i < j < |requests| && requests[i].isChaff ==> requests[j].isChaff
  }

  method RealRequests(request: Request, nonChaffBuyers: seq<string>) returns (requests: seq<BidRequest>)
    ensures RealsOf(requests) == KeepIf(b => b in request.buyerInputs, nonChaffBuyers)
    ensures ChaffsOf(requests) == [] && RealsFirst(requests)
  {
    requests := [];
    for i := 0 to |nonChaffBuyers|
      invariant RealsOf(requests) == KeepIf(b => b in request.buyerInputs, nonChaffBuyers[..i])
      invariant ChaffsOf(requests) == [] && forall r :: r in requests ==> !r.isChaff
    {
      var buyer := nonChaffBuyers[i];
      assert nonChaffBuyers[..i + 1] == nonChaffBuyers[..i] + [buyer];
      KeepIfSnoc(b => b in request.buyerInputs, nonChaffBuyers[..i], buyer);
      if buyer !in request.buyerInputs {
        continue;
      }
      FilterMapSnoc(RealOf, requests, BidRequest(buyer, false));
      FilterMapSnoc(ChaffOf, requests, BidRequest(buyer, false));
      requests := requests + [BidRequest(buyer, false)];
    }
    assert nonChaffBuyers[..|nonChaffBuyers|] == nonChaffBuyers;
  }

  method AppendChaffRequests(config: ChaffingConfig, before: seq<BidRequest>) returns (requests: seq<BidRequest>)
    requires config.numChaffRequests <= |config.chaffRequestCandidates|
    requires ChaffsOf(before) == [] && RealsFirst(before)
    ensures RealsOf(requests) == RealsOf(before) && RealsFirst(requests)
    ensures ChaffsOf(requests) == config.chaffRequestCandidates[..config.numChaffRequests]
  {
    requests := before;
    var candidates := config.chaffRequestCandidates;
    var i := 0;
    while i < |candidates|
      invariant i <= config.numChaffRequests
      invariant RealsOf(requests) == RealsOf(before) && RealsFirst(requests)
      invariant ChaffsOf(requests) == candidates[..i]
    {
      if i >= config.numChaffRequests {
        break;
      }
      var chaff := BidRequest(candidates[i], true);
      FilterMapSnoc(RealOf, requests, chaff);
      FilterMapSnoc(ChaffOf, requests, chaff);
      assert candidates[..i + 1] == candidates[..i] + [candidates[i]];
      requests := requests + [chaff];
      i := i + 1;
    }
  }

  method BuildRequests(request: Request, config: ChaffingConfig, nonChaffBuyers: seq<string>)
    returns (requests: seq<BidRequest>)
    requires config.numChaffRequests <= |config.chaffRequestCandidates|
    requires !request.chaffingEnabled ==> config.numChaffRequests == 0
    ensures multiset(RealsOf(requests)) == multiset(KeepIf(b => b in request.buyerInputs, nonChaffBuyers))
    ensures multiset(ChaffsOf(requests)) == multiset(config.chaffRequestCandidates[..config.numChaffRequests])
    ensures !request.chaffingEnabled || !request.hasGenerator ==>
              && RealsOf(requests) == KeepIf(b => b in request.buyerInputs, nonChaffBuyers)
              && ChaffsOf(requests) == config.chaffRequestCandidates[..config.numChaffRequests]
              && RealsFirst(requests)
  {
    requests := RealRequests(request, nonChaffBuyers);
    if request.chaffingEnabled && config.chaffRequestCandidates != [] {
      requests := AppendChaffRequests(config, requests);
      if request.hasGenerator {
        var shuffled := Shuffle(requests);
        SamePartsOfPermutation(shuffled, requests);
        requests := shuffled;
      }
    }
  }

  /** Sends the first requests, up to the cap; the buyers of the others are skipped. */
  method Solicit(requests: seq<BidRequest>, maxBuyersSolicited: nat)
    returns (solicited: seq<BidRequest>, skipped: nat, chaffBuyers: seq<string>, nonChaffBuyers: seq<string>)
    ensures solicited == requests[..Min(|requests|, maxBuyersSolicited)]
    ensures skipped == |requests| - |solicited|
    ensures chaffBuyers == ChaffsOf(solicited)
    ensures nonChaffBuyers == RealsOf(solicited)
  {
    solicited, skipped, chaffBuyers, nonChaffBuyers := [], 0, [], [];
    for i := 0 to |requests|
      invariant solicited == requests[..Min(i, maxBuyersSolicited)]
      invariant skipped == i - |solicited|
      invariant chaffBuyers == ChaffsOf(solicited) && nonChaffBuyers == RealsOf(solicited)
    {
      if |solicited| >= maxBuyersSolicited {
        skipped := skipped + 1;
        continue;
      }
      FilterMapSnoc(RealOf, solicited, requests[i]);
      FilterMapSnoc(ChaffOf, solicited, requests[i]);
      if requests[i].isChaff {
        chaffBuyers := chaffBuyers + [requests[i].buyer];
      } else {
        nonChaffBuyers := nonChaffBuyers + [requests[i].buyer];
      }
      solicited := solicited + [requests[i]];
    }
  }

  /** A run that found no cache entry asks every real buyer, and a random set of chaff candidates. */
  ghost predicate FirstRun(request: Request, run: Run) {
    && multiset(RealsOf(run.requests)) == multiset(request.RealBuyers())
    && NoDuplicates(ChaffsOf(run.requests))
    && (forall b :: b in ChaffsOf(run.requests) ==> b in request.ChaffCandidates())
    && (if request.chaffingEnabled && request.hasGenerator then ChaffLowerBound(request) <= |ChaffsOf(run.requests)|
        else RealsOf(run.requests) == request.RealBuyers() && ChaffsOf(run.requests) == [])
    && run.tracked == |run.requests|
  }

  /** A run that found a cache entry asks the cached buyers; a real one is dropped if it has no input any more. */
  ghost predicate Replay(request: Request, invoked: InvokedBuyers, run: Run) {
    && multiset(RealsOf(run.requests)) ==
         multiset(KeepIf(b => b in request.buyerInputs, invoked.nonChaffBuyerNames))
    && multiset(ChaffsOf(run.requests)) == multiset(invoked.chaffBuyerNames)
    && (!request.hasGenerator ==>
          && RealsOf(run.requests) == KeepIf(b => b in request.buyerInputs, invoked.nonChaffBuyerNames)
          && ChaffsOf(run.requests) == invoked.chaffBuyerNames && RealsFirst(run.requests))
    && run.tracked == |invoked.nonChaffBuyerNames| + |invoked.chaffBuyerNames|
  }

  /** The cap, and the entry a first run leaves in the cache. */
  ghost predicate Sends(request: Request, run: Run) {
    && run.solicited == run.requests[..Min(|run.requests|, request.MaxBuyersSolicited())]
    && run.skipped == |run.requests| - |run.solicited|
    && run.cached ==
         if request.chaffingEnabled && request.hasInvokedBuyersCache && request.invokedBuyers == None && run.tracked > 0
         then Some(InvokedBuyers(ChaffsOf(run.solicited), RealsOf(run.solicited)))
         else None
  }

  ghost predicate IsRun(request: Request, run: Run) {
    && Sends(request, run)
    && (match request.invokedBuyers
        case None => FirstRun(request, run)
        case Some(invoked) => Replay(request, invoked, run))
  }

  lemma RealAndChaffAreDisjoint(request: Request)
    ensures forall b :: b in request.RealBuyers() <==>
              b in request.configuredBuyers && b in request.auctionBuyers && b in request.buyerInputs
    ensures forall b :: b in request.ChaffCandidates() <==>
              b in request.configuredBuyers && b in request.auctionBuyers && b !in request.buyerInputs
    ensures NoDuplicates(request.configuredBuyers) ==>
              NoDuplicates(request.RealBuyers()) && NoDuplicates(request.ChaffCandidates())
  {
    KeepIfMember(b => b in request.auctionBuyers && b in request.buyerInputs, request.configuredBuyers);
    KeepIfMember(b => b in request.auctionBuyers && b !in request.buyerInputs, request.configuredBuyers);
  }

  /** The first numChaffRequests of the shuffled candidates are distinct candidates. */
  lemma ChaffPrefix(request: Request, config: ChaffingConfig, chaffs: seq<string>)
    requires NoDuplicates(request.configuredBuyers)
    requires multiset(config.chaffRequestCandidates) == multiset(request.ChaffCandidates())
    requires config.numChaffRequests <= |config.chaffRequestCandidates|
    requires multiset(chaffs) == multiset(config.chaffRequestCandidates[..config.numChaffRequests])
    ensures NoDuplicates(chaffs) && |chaffs| == config.numChaffRequests
    ensures forall b :: b in chaffs ==> b in request.ChaffCandidates()
  {
    var candidates := config.chaffRequestCandidates;
    RealAndChaffAreDisjoint(request);
    PermutationNoDuplicates(request.ChaffCandidates(), candidates);
    PermutationMembers(candidates, request.ChaffCandidates());
    var prefix := candidates[..config.numChaffRequests];
    PermutationNoDuplicates(prefix, chaffs);
    PermutationMembers(chaffs, prefix);
    SameLength(chaffs, prefix);
  }

  lemma FreshCandidatesHaveNoInput(request: Request, config: ChaffingConfig)
    requires FreshConfig(request, config)
    ensures forall b :: b in config.chaffRequestCandidates ==> b !in request.buyerInputs
  {
    if request.chaffingEnabled {
      RealAndChaffAreDisjoint(request);
      PermutationMembers(config.chaffRequestCandidates, request.ChaffCandidates());
    }
  }

  lemma FreshConfigGivesFirstRun(request: Request, config: ChaffingConfig, run: Run)
    requires NoDuplicates(request.configuredBuyers) && FreshConfig(request, config)
    requires multiset(RealsOf(run.requests)) == multiset(KeepIf(b => b in request.buyerInputs, request.RealBuyers()))
    requires multiset(ChaffsOf(run.requests)) == multiset(config.chaffRequestCandidates[..config.numChaffRequests])
    requires !request.chaffingEnabled || !request.hasGenerator ==>
               RealsOf(run.requests) == KeepIf(b => b in request.buyerInputs, request.RealBuyers())
    requires run.tracked == config.numRealRequests + config.numChaffRequests
    ensures FirstRun(request, run)
  {
    RealAndChaffAreDisjoint(request);
    KeepIfAll(b => b in request.buyerInputs, request.RealBuyers());
    RealsAndChaffsPartition(run.requests);
    SameLength(RealsOf(run.requests), request.RealBuyers());
    if request.chaffingEnabled {
      ChaffPrefix(request, config, ChaffsOf(run.requests));
    }
  }

  method FetchBids(request: Request) returns (run: Run)
    requires request.Valid()
    ensures IsRun(request, run)
  {
    var config := GetChaffingConfig(request);
    var effective := if request.chaffingEnabled then config.numRealRequests + config.numChaffRequests
                     else config.numRealRequests;
    if effective == 0 {
      return Run(0, [], [], 0, None);
    }
    var replaying := request.hasInvokedBuyersCache && request.invokedBuyers.Some?;
    var nonChaffBuyers;
    if replaying {
      nonChaffBuyers := request.invokedBuyers.value.nonChaffBuyerNames;
    } else {
      FreshCandidatesHaveNoInput(request, config);
      nonChaffBuyers := GetNonChaffBuyerNames(request, config);
    }
    var requests := BuildRequests(request, config, nonChaffBuyers);
    var solicited, skipped, chaffBuyers, realBuyers := Solicit(requests, request.MaxBuyersSolicited());
    var cached := None;
    if request.chaffingEnabled && request.hasInvokedBuyersCache && request.invokedBuyers == None {
      cached := Some(InvokedBuyers(chaffBuyers, realBuyers));
    }
    run := Run(effective, requests, solicited, skipped, cached);
    if !replaying {
      FreshConfigGivesFirstRun(request, config, run);
    } else {
      var all := request.invokedBuyers.value.chaffBuyerNames;
      assert all[..|all|] == all;
    }
  }

  // ---------- what follows for every run ----------

  lemma SolicitedParts(run: Run, request: Request)
    requires Sends(request, run)
    ensures |RealsOf(run.solicited)| + |ChaffsOf(run.solicited)| == |run.solicited|
    ensures forall b :: b in RealsOf(run.solicited) ==> b in RealsOf(run.requests)
    ensures forall b :: b in ChaffsOf(run.solicited) ==> b in ChaffsOf(run.requests)
    ensures |RealsOf(run.solicited)| <= |RealsOf(run.requests)|
  {
    RealsAndChaffsPartition(run.solicited);
    var rest := run.requests[|run.solicited|..];
    assert run.requests == run.solicited + rest;
    FilterMapConcat(RealOf, run.solicited, rest);
    FilterMapConcat(ChaffOf, run.solicited, rest);
  }

  /** Whom a first run asks: configured buyers the auction names, for real iff the ciphertext has their input. */
  lemma SolicitedBuyersAreConfigured(request: Request, run: Run)
    requires request.invokedBuyers == None && IsRun(request, run)
    ensures forall b :: b in RealsOf(run.solicited) ==>
              b in request.configuredBuyers && b in request.auctionBuyers && b in request.buyerInputs
    ensures forall b :: b in ChaffsOf(run.solicited) ==>
              b in request.configuredBuyers && b in request.auctionBuyers && b !in request.buyerInputs
    ensures multiset(RealsOf(run.solicited)) !! multiset(ChaffsOf(run.solicited))
  {
    SolicitedParts(run, request);
    RealAndChaffAreDisjoint(request);
    PermutationMembers(RealsOf(run.requests), request.RealBuyers());
    var reals, chaffs := multiset(RealsOf(run.solicited)), multiset(ChaffsOf(run.solicited));
    forall b ensures b !in reals || b !in chaffs {
      assert b in reals <==> b in RealsOf(run.solicited);
      assert b in chaffs <==> b in ChaffsOf(run.solicited);
    }
  }

  /** Every tracked task is a solicited request or a skipped one, and the cap is used up before anyone is skipped. */
  lemma FirstRunConservesTasks(request: Request, run: Run)
    requires request.invokedBuyers == None && IsRun(request, run)
    ensures run.tracked == |run.solicited| + run.skipped == |request.RealBuyers()| + |ChaffsOf(run.requests)|
    ensures |run.solicited| == Min(|run.requests|, request.MaxBuyersSolicited())
    ensures run.skipped > 0 ==> |run.solicited| == request.MaxBuyersSolicited()
  {
    RealsAndChaffsPartition(run.requests);
    SameLength(RealsOf(run.requests), request.RealBuyers());
  }

  /** How many requests go out: at most 15 with chaffing on, and as many as the flag says with chaffing off. */
  lemma AtMostTheCapIsSent(request: Request, run: Run)
    requires IsRun(request, run)
    ensures |run.solicited| ==
              Min(|run.requests|, if request.chaffingEnabled then 15 else request.maxBuyersSolicitedFlag)
    ensures |run.solicited| + run.skipped == |run.requests|
  {
  }

  /** With somebody to ask for real there is a chaff request too, if there is a candidate and a generator. */
  lemma RealBuyersHaveChaff(request: Request, run: Run)
    requires request.invokedBuyers == None && IsRun(request, run)
    requires request.chaffingEnabled && request.hasGenerator
    requires request.RealBuyers() != [] && request.ChaffCandidates() != []
    ensures exists b :: b in ChaffsOf(run.requests) && b in request.ChaffCandidates()
  {
    assert |ChaffsOf(run.requests)| >= 1;
    assert ChaffsOf(run.requests)[0] in ChaffsOf(run.requests);
  }

  /** With nobody to ask for real, the observer still sees two requests, whatever the cap and the shuffles do. */
  lemma NoRealBuyersStillSendsTwoChaff(request: Request, run: Run)
    requires request.invokedBuyers == None && IsRun(request, run)
    requires request.chaffingEnabled && request.hasGenerator
    requires request.RealBuyers() == [] && |request.ChaffCandidates()| >= 2
    ensures |ChaffsOf(run.solicited)| == |run.solicited| >= 2
  {
    RealsAndChaffsPartition(run.requests);
    SameLength(RealsOf(run.requests), request.RealBuyers());
    SolicitedParts(run, request);
  }

  /** A replay tracks as many tasks as it builds requests iff no cached real buyer lost its input. */
  lemma ReplayConservesTasksIff(request: Request, run: Run)
    requires request.invokedBuyers.Some? && IsRun(request, run)
    ensures run.tracked == |run.requests| <==>
            forall b :: b in request.invokedBuyers.value.nonChaffBuyerNames ==> b in request.buyerInputs
  {
    var invoked := request.invokedBuyers.value;
    RealsAndChaffsPartition(run.requests);
    SameLength(RealsOf(run.requests), KeepIf(b => b in request.buyerInputs, invoked.nonChaffBuyerNames));
    SameLength(ChaffsOf(run.requests), invoked.chaffBuyerNames);
    KeepIfLength(b => b in request.buyerInputs, invoked.nonChaffBuyerNames);
  }

  /** A replay whose only cached buyer, a real one, has no input in the request any more. */
  const DROPPED_BUYER_REQUEST :=
    Request(["buyer"], {"buyer"}, {}, true, true, true, Some(InvokedBuyers([], ["buyer"])), 1)

  /** It counts the buyer's task and builds no request. */
  const DROPPED_BUYER_RUN := Run(1, [], [], 0, None)

  /** The only run there is on this request. */
  lemma ReplayCanLoseATask(run: Run)
    ensures DROPPED_BUYER_REQUEST.Valid()
    ensures IsRun(DROPPED_BUYER_REQUEST, run) <==> run == DROPPED_BUYER_RUN
  {
    var names := DROPPED_BUYER_REQUEST.invokedBuyers.value.nonChaffBuyerNames;
    assert names[1..] == [];
    assert KeepIf(b => b in DROPPED_BUYER_REQUEST.buyerInputs, names) == [];
    RealsAndChaffsPartition(run.requests);
    if IsRun(DROPPED_BUYER_REQUEST, run) {
      SameLength(RealsOf(run.requests), []);
      SameLength(ChaffsOf(run.requests), []);
    }
  }

  /** Serving the request again from the entry its first run wrote asks the same buyers, in the same two roles. */
  lemma ReplayAsksTheSameBuyers(request: Request, first: Run, again: Request, second: Run)
    requires request.chaffingEnabled && request.hasInvokedBuyersCache && request.invokedBuyers == None
    requires IsRun(request, first)
    requires again == request.(invokedBuyers := first.cached, hasGenerator := again.hasGenerator)
    requires first.cached.Some? && IsRun(again, second)
    ensures multiset(RealsOf(second.solicited)) == multiset(RealsOf(first.solicited))
    ensures multiset(ChaffsOf(second.solicited)) == multiset(ChaffsOf(first.solicited))
    ensures second.skipped == 0 && second.tracked == |second.requests| == |first.solicited|
    ensures second.cached == None
  {
    SolicitedBuyersAreConfigured(request, first);
    SolicitedParts(first, request);
    KeepIfAll(b => b in again.buyerInputs, RealsOf(first.solicited));
    RealsAndChaffsPartition(second.requests);
    SameLength(RealsOf(second.requests), RealsOf(first.solicited));
    SameLength(ChaffsOf(second.requests), ChaffsOf(first.solicited));
    assert second.solicited == second.requests;
  }

  /** The two runs one after the other, with any random choices in either. */
  method SolicitThenReplay(request: Request, generatorOnReplay: bool) returns (first: Run, second: Run)
    requires request.Valid()
    requires request.chaffingEnabled && request.hasInvokedBuyersCache && request.invokedBuyers == None
    ensures IsRun(request, first)
    ensures first.tracked > 0 ==>
              multiset(RealsOf(second.solicited)) == multiset(RealsOf(first.solicited)) &&
              multiset(ChaffsOf(second.solicited)) == multiset(ChaffsOf(first.solicited))
  {
    first := FetchBids(request);
    var again := request.(invokedBuyers := first.cached, hasGenerator := generatorOnReplay);
    second := FetchBids(again);
    if first.tracked > 0 {
      ReplayAsksTheSameBuyers(request, first, again, second);
    }
  }
}
