/** ScoreAdsReactor: one ScoreAds request from dispatch to the finished RPC. */
module ScoreAdsReactor {
  import opened Sequences
  import opened AuctionTypes
  import opened AdRejection
  import opened WinnerSelection
  import opened OtherBids
  import opened Cancellation
  import Automaton

  // ---------- the order of dispatches, callbacks and Finish ----------

  datatype Status = OK | Cancelled | Internal | InvalidArgument | Unknown

  datatype Event =
    | ScoreAdsDispatched
    | ScoreAdsReturned
    | ReportResultDispatched
    | ReportResultReturned
    | ReportWinDispatched
    | ReportWinReturned
    | ReportingDispatched
    | ReportingReturned
    | ProcessAborted
    | Finished(status: Status)

  /** What a failed absl::Status carries. */
  type ErrorStatus = status: Status | status != OK witness Internal

  /** Where a request can be: waiting for a callback, between two calls, or at an end. The RPC should be finished once;
      the code can also abort the process before, or finish the RPC a second time. */
  datatype Stage =
    | Start
    | Scoring
    | ScoresKnown
    | InReportResult
    | ResultReported
    | InReportWin
    | WinReported
    | InReporting
    | ReportingDone
    | Done
    | FinishedTwice
    | Aborted

  predicate IsEnd(stage: Stage) {
    stage in {Done, FinishedTwice, Aborted}
  }

  function Next(stage: Stage, event: Event): Option<Stage> {
    match (stage, event)
    case (Start, ScoreAdsDispatched) => Some(Scoring)
    case (Scoring, ScoreAdsReturned) => Some(ScoresKnown)
    case (ScoresKnown, ReportResultDispatched) => Some(InReportResult)
    case (InReportResult, ReportResultReturned) => Some(ResultReported)
    case (ResultReported, ReportWinDispatched) => Some(InReportWin)
    case (InReportWin, ReportWinReturned) => Some(WinReported)
    case (ScoresKnown, ReportingDispatched) => Some(InReporting)
    case (InReporting, ReportingReturned) => Some(ReportingDone)
    case (ScoresKnown, ProcessAborted) => Some(Aborted)
    case (Done, Finished(_)) => Some(FinishedTwice)
    case (Done, _) => None
    case (FinishedTwice, _) => None
    case (Aborted, _) => None
    case (_, Finished(_)) => Some(Done)
    case _ => None
  }

  function StageAfter(log: seq<Event>): Option<Stage> {
    Automaton.After(Next, Start, log)
  }

  function FinishCalls(log: seq<Event>): nat {
    |KeepIf((event: Event) => event.Finished?, log)|
  }

  /** The stage of a log tells how often Finish has been called. */
  lemma {:induction false} FinishCallsByStage(log: seq<Event>)
    requires StageAfter(log).Some?
    ensures FinishCalls(log) == match StageAfter(log).value
              case Done => 1
              case FinishedTwice => 2
              case _ => 0
  {
    if log != [] {
      var front, last := log[..|log| - 1], log[|log| - 1];
      FinishCallsByStage(front);
      assert log == front + [last];
      KeepIfSnoc((event: Event) => event.Finished?, front, last);
    }
  }

  /** A log that reaches Done finishes the RPC exactly once, as its last act. */
  lemma FinishesExactlyOnce(log: seq<Event>)
    requires StageAfter(log) == Some(Done)
    ensures log != [] && log[|log| - 1].Finished?
    ensures forall k :: 0 <= k < |log| - 1 ==> !log[k].Finished?
  {
    var front, last := log[..|log| - 1], log[|log| - 1];
    FinishCallsByStage(front);
    KeepIfMember((event: Event) => event.Finished?, front);
    forall k | 0 <= k < |log| - 1 ensures !log[k].Finished? {
      assert front[k] in front;
    }
  }

  /** The event that leads into a stage on the way to reportWin, and the stage before it. */
  lemma CameFrom(log: seq<Event>, k: nat)
    requires k <= |log| && StageAfter(log[..k]).Some?
    ensures var stage := StageAfter(log[..k]).value;
      var last := if k == 0 then None else Some(log[k - 1]);
      var before := if k == 0 then None else StageAfter(log[..k - 1]);
      && (stage == ResultReported ==> last == Some(ReportResultReturned) && before == Some(InReportResult))
      && (stage == InReportResult ==> last == Some(ReportResultDispatched) && before == Some(ScoresKnown))
      && (stage == ScoresKnown ==> last == Some(ScoreAdsReturned) && before == Some(Scoring))
      && (stage == Scoring ==> last == Some(ScoreAdsDispatched) && before == Some(Start))
  {
    if k > 0 {
      assert log[..k][..k - 1] == log[..k - 1];
    }
  }

  /** reportWin is dispatched only right after reportResult has returned, itself only after the scores have. */
  lemma ReportWinFollowsReportResult(log: seq<Event>, k: nat)
    requires StageAfter(log).Some? && k < |log| && log[k] == ReportWinDispatched
    ensures k >= 4
    ensures log[k - 1] == ReportResultReturned && log[k - 2] == ReportResultDispatched
    ensures log[k - 3] == ScoreAdsReturned && log[k - 4] == ScoreAdsDispatched
  {
    Automaton.PrefixIsAccepted(Next, Start, log, k + 1);
    assert log[..k + 1][..k] == log[..k];
    CameFrom(log, k);
    CameFrom(log, k - 1);
    CameFrom(log, k - 2);
    CameFrom(log, k - 3);
  }

  // ---------- building the dispatch requests ----------

  /** One scoreAd() call per ad, taken from the back. requestIds[k] is the id of the request built for ads[k], or None
      when the ad lacks required scoring signals or its request cannot be built; an id already taken is dropped. */
  method PopulateDispatchRequests(
    ads: seq<AdWithBidMetadata>, requestIds: seq<Option<string>>, taken: map<string, AdWithBidMetadata>)
    returns (adData: map<string, AdWithBidMetadata>, requests: seq<string>)
    requires |requestIds| == |ads|
    ensures NoDuplicates(requests)
    ensures forall id :: id in requests ==> id in adData && id !in taken
    ensures adData.Keys == taken.Keys + (set id | id in requests)
    ensures forall id :: id in taken ==> adData[id] == taken[id]
    ensures forall id :: id in requests ==>
              exists k :: 0 <= k < |ads| && requestIds[k] == Some(id) && adData[id] == ads[k]
    ensures forall k :: 0 <= k < |ads| && requestIds[k].Some? ==> requestIds[k].value in adData
  {
    adData, requests := taken, [];
    var left := |ads|;
    while left > 0
      invariant 0 <= left <= |ads|
      invariant NoDuplicates(requests)
      invariant forall id :: id in requests ==> id in adData && id !in taken
      invariant adData.Keys == taken.Keys + (set id | id in requests)
      invariant forall id :: id in taken ==> adData[id] == taken[id]
      invariant forall id :: id in requests ==>
        exists k :: left <= k < |ads| && requestIds[k] == Some(id) && adData[id] == ads[k]
      invariant forall k :: left <= k < |ads| && requestIds[k].Some? ==> requestIds[k].value in adData
    {
      left := left - 1;
      if requestIds[left].Some? {
        var id := requestIds[left].value;
        if id !in adData {
          adData := adData[id := ads[left]];
          requests := requests + [id];
        }
      }
    }
  }

  predicate AnyIdBuilt(requestIds: seq<Option<string>>) {
    exists k :: 0 <= k < |requestIds| && requestIds[k].Some?
  }

  lemma SomeRequestBuilt(
    requestIds: seq<Option<string>>, adData: map<string, AdWithBidMetadata>, requests: seq<string>)
    requires forall id :: id in adData <==> id in requests
    requires forall id :: id in requests ==> exists k :: 0 <= k < |requestIds| && requestIds[k] == Some(id)
    requires forall k :: 0 <= k < |requestIds| && requestIds[k].Some? ==> requestIds[k].value in adData
    ensures requests != [] <==> AnyIdBuilt(requestIds)
  {
    if requests != [] {
      assert requests[0] in requests;
    }
  }

  // ---------- reading the scoreAd() results ----------

  /** What scoreAd() said about one ad; the buyer's side of the score is filled in from the dispatched ad. */
  datatype ScoreAdOutput = ScoreAdOutput(
    desirability: real, bid: real, bidCurrency: string, incomingBidInSellerCurrency: real,
    allowComponentAuction: bool, json: ScoreAdJson)

  datatype DispatchResponse = ExecutionFailed | Unparsable(id: string) | Scored(id: string, output: ScoreAdOutput)

  /** A response counts if it parses and its id was dispatched; without enforcement every ad is k-anonymous. */
  function CollectOne(enforceKAnon: bool, dispatched: Dispatched, response: DispatchResponse): Option<ScoredAd> {
    match response
    case ExecutionFailed => None
    case Unparsable(_) => None
    case Scored(id, output) =>
      if !dispatched.Knows(id) then None
      else
        var ad := dispatched.Ad(id);
        Some(ScoredAd(
          id,
          AdScore(ad.owner, if ad.ProtectedAudience? then ad.name else "", output.desirability, output.bid,
            output.bidCurrency, ad.bid, ad.bidCurrency, output.incomingBidInSellerCurrency,
            output.allowComponentAuction),
          output.json,
          !enforceKAnon || ad.kAnon))
  }

  method CollectValidRomaResponses(enforceKAnon: bool, dispatched: Dispatched, responses: seq<DispatchResponse>)
    returns (valid: seq<ScoredAd>)
    ensures valid == FilterMap(r => CollectOne(enforceKAnon, dispatched, r), responses)
  {
    valid := [];
    for index := 0 to |responses|
      invariant valid == FilterMap(r => CollectOne(enforceKAnon, dispatched, r), responses[..index])
    {
      FilterMapSnoc(r => CollectOne(enforceKAnon, dispatched, r), responses[..index], responses[index]);
      assert responses[..index + 1] == responses[..index] + [responses[index]];
      var ad := CollectOne(enforceKAnon, dispatched, responses[index]);
      if ad.Some? {
        valid := valid + [ad.value];
      }
    }
    assert responses[..|responses|] == responses;
  }

  /** What an ad still says after scoring and examination about the ad that was dispatched. */
  ghost predicate Traces(enforceKAnon: bool, dispatched: Dispatched, ad: ScoredAd) {
    && dispatched.Knows(ad.id)
    && ad.kAnon == (!enforceKAnon || dispatched.Ad(ad.id).kAnon)
    && ad.score.owner == dispatched.Ad(ad.id).owner
    && ad.score.buyerBid == dispatched.Ad(ad.id).bid
    && ad.score.buyerBidCurrency == dispatched.Ad(ad.id).bidCurrency
    && (if dispatched.Ad(ad.id).ProtectedAudience? then ad.score.name == dispatched.Ad(ad.id).name
        else ad.score.name == "")
  }

  /** What scoreAd() answered about a dispatched ad, as a score: the buyer's side is the dispatched ad's, the seller's
      side the answer's, and without enforcement every ad counts as k-anonymous. */
  ghost predicate ScoredBy(enforceKAnon: bool, dispatched: Dispatched, response: DispatchResponse, ad: ScoredAd) {
    && response.Scored? && response.id == ad.id
    && Traces(enforceKAnon, dispatched, ad)
    && ad.score.desirability == response.output.desirability
    && ad.score.bid == response.output.bid && ad.score.bidCurrency == response.output.bidCurrency
    && ad.score.incomingBidInSellerCurrency == response.output.incomingBidInSellerCurrency
    && ad.score.allowComponentAuction == response.output.allowComponentAuction
    && ad.json == response.output.json
  }

  lemma SurvivorsTrace(
    auction: Auction, enforceKAnon: bool, dispatched: Dispatched, responses: seq<DispatchResponse>,
    parsed: seq<ScoredAd>)
    requires multiset(parsed) ==
               multiset(Survivors(auction, FilterMap(r => CollectOne(enforceKAnon, dispatched, r), responses)))
    ensures forall ad :: ad in parsed ==> Traces(enforceKAnon, dispatched, ad)
  {
    var collected := FilterMap(r => CollectOne(enforceKAnon, dispatched, r), responses);
    PermutationMembers(parsed, Survivors(auction, collected));
    forall ad | ad in parsed ensures Traces(enforceKAnon, dispatched, ad) {
      FilterMapMember(x => Survivor(auction, x), collected, ad);
      var scored :| scored in collected && Survivor(auction, scored) == Some(ad);
      FilterMapMember(r => CollectOne(enforceKAnon, dispatched, r), responses, scored);
    }
  }

  // ---------- the reactor ----------

  datatype Config = Config(
    auction: Auction,
    enforceKAnon: bool,
    enableCancellation: bool,
    enableReportResultUrlGeneration: bool,
    reportWinUrlGenerationFlag: bool,
    sellerAndBuyerCodeIsolation: bool,
    buyersWithReportWinEnabled: set<string>,
    protectedAppSignalsBuyersWithReportWinEnabled: set<string>)
  {
    predicate EnableReportWinUrlGeneration() {
      reportWinUrlGenerationFlag && !auction.scope.TopLevel?
    }

    predicate ReportsWinFor(buyer: string, appSignals: bool) {
      EnableReportWinUrlGeneration() &&
      buyer in (if appSignals then protectedAppSignalsBuyersWithReportWinEnabled else buyersWithReportWinEnabled)
    }
  }

  /** The request and the environment's answers: how the dispatch requests were built, what each dispatch came to. */
  datatype Environment = Environment(
    protectedAudienceAds: seq<AdWithBidMetadata>,
    protectedAudienceIds: seq<Option<string>>,
    protectedAppSignalsAds: seq<AdWithBidMetadata>,
    protectedAppSignalsIds: seq<Option<string>>,
    scoringSignals: Option<ErrorStatus>,
    anyComponentResult: bool,
    sameGenerationIds: bool,
    componentAds: Dispatched,
    scoreDispatchOk: bool,
    responses: seq<DispatchResponse>,
    reportResultOk: bool,
    reportResultResponses: nat,
    reportWinOk: bool,
    reportingOk: bool,
    perBuyerSignals: set<string>,
    encrypted: bool)

  /** There is something to score: for a component or single-seller auction, a request that could be built. */
  predicate Dispatchable(config: Config, env: Environment) {
    if config.auction.scope.TopLevel? then
      && env.anyComponentResult && env.sameGenerationIds
      && (env.componentAds.adData != map[] || env.componentAds.protectedAppSignalsAdData != map[])
    else
      && env.scoringSignals == None
      && (AnyIdBuilt(env.protectedAudienceIds) || AnyIdBuilt(env.protectedAppSignalsIds))
  }

  /** What a request with nothing to score is finished with. Only the missing signals' own status and the mixed
      generation ids of a top-level auction reach the ad server. */
  function RefusalStatus(config: Config, env: Environment): ErrorStatus {
    if config.auction.scope.TopLevel? then
      if env.anyComponentResult && !env.sameGenerationIds then InvalidArgument else Internal
    else if env.scoringSignals.Some? then env.scoringSignals.value
    else Internal
  }

  /** Some ad is known, or some request could be built. */
  lemma DispatchableIff(config: Config, env: Environment)
    ensures config.auction.scope.TopLevel? ==>
              (Dispatchable(config, env) <==>
                 env.anyComponentResult && env.sameGenerationIds && exists id :: env.componentAds.Knows(id))
    ensures !config.auction.scope.TopLevel? ==>
              (Dispatchable(config, env) <==>
                 && env.scoringSignals == None
                 && exists id: Option<string> ::
                      id.Some? && (id in env.protectedAudienceIds || id in env.protectedAppSignalsIds))
  {
    var ads := env.componentAds;
    if id :| id in ads.adData.Keys {
      assert ads.Knows(id);
    } else if id :| id in ads.protectedAppSignalsAdData.Keys {
      assert ads.Knows(id);
    } else {
      assert ads.adData.Keys == {} && ads.protectedAppSignalsAdData.Keys == {};
    }
  }

  /** The status, case by case: only in a single-seller or component auction can it be that of the missing signals, and
      only mixed generation ids of a top-level auction are the caller's fault. */
  lemma RefusalMeans(config: Config, env: Environment)
    requires !Dispatchable(config, env)
    ensures config.auction.scope.TopLevel? ==>
              RefusalStatus(config, env) == if env.anyComponentResult && !env.sameGenerationIds then InvalidArgument
                                            else Internal
    ensures !config.auction.scope.TopLevel? ==>
              match env.scoringSignals
              case Some(status) => RefusalStatus(config, env) == status
              case None =>
                && RefusalStatus(config, env) == Internal
                && (forall id :: id in env.protectedAudienceIds ==> id == None)
                && (forall id :: id in env.protectedAppSignalsIds ==> id == None)
  {
  }

  /** How a run ends that has a response to send. A failed encryption finishes the RPC by itself, and the caller, which
      ignores its result, finishes it again. */
  function OkEnd(env: Environment): seq<Event> {
    if env.encrypted then [Finished(OK)] else [Finished(Internal), Finished(OK)]
  }

  /** The stage after a run whose last event this is. */
  function EndOf(env: Environment, last: Event): Stage {
    if last == ProcessAborted then Aborted
    else if last == Finished(OK) && !env.encrypted then FinishedTwice
    else Done
  }

  /** The single reporting call reads the signals of the winner's buyer without asking whether there are any. */
  predicate ReportAborts(config: Config, env: Environment, ad: ScoredAd) {
    && config.enableReportResultUrlGeneration && !config.sellerAndBuyerCodeIsolation
    && config.reportWinUrlGenerationFlag && !config.auction.scope.TopLevel?
    && ad.score.owner !in env.perBuyerSignals
  }

  /** What follows the scores in a run with a winner that nobody cancels. */
  function ReportingTrail(config: Config, env: Environment, dispatched: Dispatched, ad: ScoredAd): seq<Event> {
    if !config.enableReportResultUrlGeneration then OkEnd(env)
    else if config.sellerAndBuyerCodeIsolation then
      ReportResultTrail(config, env, ad.score.owner, ad.id !in dispatched.adData)
    else if ReportAborts(config, env, ad) then [ProcessAborted]
    else if env.reportingOk then [ReportingDispatched, ReportingReturned] + OkEnd(env)
    else OkEnd(env)
  }

  function ReportResultTrail(config: Config, env: Environment, buyer: string, appSignals: bool): seq<Event> {
    if !env.reportResultOk then OkEnd(env)
    else [ReportResultDispatched, ReportResultReturned] + ReportWinTrail(config, env, buyer, appSignals)
  }

  function ReportWinTrail(config: Config, env: Environment, buyer: string, appSignals: bool): seq<Event> {
    if env.reportResultResponses > 0 && config.ReportsWinFor(buyer, appSignals) && env.reportWinOk
    then [ReportWinDispatched, ReportWinReturned] + OkEnd(env)
    else OkEnd(env)
  }

  /** A client that cancels is noticed before the reporting call and when it returns; with separate code for seller and
      buyer only when reportResult returns. */
  predicate CutShort(config: Config, env: Environment, ad: ScoredAd, before: seq<Event>, log: seq<Event>) {
    && config.enableCancellation && config.enableReportResultUrlGeneration
    && if config.sellerAndBuyerCodeIsolation then
         env.reportResultOk && log == before + [ReportResultDispatched, ReportResultReturned, Finished(Cancelled)]
       else
         && !ReportAborts(config, env, ad)
         && (|| log == before + [Finished(Cancelled)]
             || (env.reportingOk && log == before + [ReportingDispatched, ReportingReturned, Finished(Cancelled)]))
  }

  predicate ReportsAfter(
    config: Config, env: Environment, dispatched: Dispatched, ad: ScoredAd, before: seq<Event>, log: seq<Event>)
  {
    || log == before + ReportingTrail(config, env, dispatched, ad)
    || CutShort(config, env, ad, before, log)
  }

  /** A run that got to report aborts exactly if reportWin URLs are generated in the single call and the winner's buyer
      has no signals. */
  lemma ReportAbortsIff(
    config: Config, env: Environment, dispatched: Dispatched, ad: ScoredAd, before: seq<Event>, log: seq<Event>)
    requires ReportsAfter(config, env, dispatched, ad, before, log)
    ensures |log| > |before|
    ensures log[|log| - 1] == ProcessAborted <==> ReportAborts(config, env, ad)
  {
  }

  /** A winner of a buyer the seller's auction configuration does not mention, in a single-seller auction that makes one
      reporting call and generates reportWin URLs. */
  lemma WinnerWithoutSignalsAborts(config: Config, env: Environment, dispatched: Dispatched, ad: ScoredAd)
    requires config.auction.scope == SingleSeller && config.enableReportResultUrlGeneration
    requires config.reportWinUrlGenerationFlag && !config.sellerAndBuyerCodeIsolation
    requires ad.score.owner == "buyer" && env.perBuyerSignals == {}
    ensures ReportingTrail(config, env, dispatched, ad) == [ProcessAborted]
    ensures ProcessAborted !in ReportingTrail(config, env.(perBuyerSignals := {"buyer"}), dispatched, ad)
  {
    var trail := ReportingTrail(config, env.(perBuyerSignals := {"buyer"}), dispatched, ad);
    assert forall k :: 0 <= k < |trail| ==> trail[k] != ProcessAborted;
  }

  /** What the scores are about: the dispatched ads, and the answers. */
  datatype Run = Run(dispatched: Dispatched, responses: seq<DispatchResponse>)

  datatype Winner = Winner(ad: ScoredAd, otherBids: OtherBidsMap, rejectionReasons: seq<AdRejectionReason>)

  function Collected(config: Config, run: Run): seq<ScoredAd> {
    FilterMap(r => CollectOne(config.enforceKAnon, run.dispatched, r), run.responses)
  }

  /** The ads collected are exactly those that an answer about a dispatched ad scores. */
  lemma CollectedIff(config: Config, run: Run, ad: ScoredAd)
    ensures ad in Collected(config, run) <==>
              exists response ::
                response in run.responses && ScoredBy(config.enforceKAnon, run.dispatched, response, ad)
  {
    FilterMapMember(r => CollectOne(config.enforceKAnon, run.dispatched, r), run.responses, ad);
    if response :| response in run.responses && ScoredBy(config.enforceKAnon, run.dispatched, response, ad) {
      assert CollectOne(config.enforceKAnon, run.dispatched, response) == Some(ad);
    }
    if ad in Collected(config, run) {
      var response :| response in run.responses &&
        CollectOne(config.enforceKAnon, run.dispatched, response) == Some(ad);
      assert ScoredBy(config.enforceKAnon, run.dispatched, response, ad);
    }
  }

  /** What the response may hold: the winner was dispatched, is k-anonymous if that is enforced, and is the best such
      survivor, missing only if there is none; ghost winners were dispatched, are not k-anonymous, and outrank it. */
  ghost predicate IsOutcome(config: Config, run: Run, winner: Option<Winner>, ghostWinners: seq<ScoredAd>) {
    var survivors := Survivors(config.auction, Collected(config, run));
    && (winner == None <==> forall ad :: ad in survivors && ad.kAnon ==> ad.score.desirability <= 0.0)
    && (winner.Some? ==>
          && winner.value.ad in survivors
          && Traces(config.enforceKAnon, run.dispatched, winner.value.ad)
          && winner.value.ad.kAnon && winner.value.ad.score.desirability > 0.0
          && multiset(winner.value.rejectionReasons) ==
             multiset(ReasonsDue(config.auction, Collected(config, run)))
          && forall ad :: ad in survivors && ad.kAnon ==>
               ad.score.desirability <= winner.value.ad.score.desirability)
    && |ghostWinners| <= config.auction.numAllowedGhostWinners
    && (forall g :: g in ghostWinners ==>
          && g in survivors
          && Traces(config.enforceKAnon, run.dispatched, g)
          && !g.kAnon
          && forall ad :: ad in survivors && ad.kAnon && ad.score.desirability > 0.0 ==> StrictlyAbove(g, ad))
  }

  /** The log of a run that got its scores. */
  predicate ReportsFor(
    config: Config, env: Environment, dispatched: Dispatched, winner: Option<Winner>, log: seq<Event>)
  {
    var scored := [ScoreAdsDispatched, ScoreAdsReturned];
    match winner
    case None => log == scored + OkEnd(env)
    case Some(w) => ReportsAfter(config, env, dispatched, w.ad, scored, log)
  }

  /** The configuration and the answers that lead to a reportWin call for the winner. */
  predicate WantsReportWin(config: Config, env: Environment, dispatched: Dispatched, ad: ScoredAd) {
    && config.enableReportResultUrlGeneration && config.sellerAndBuyerCodeIsolation
    && env.reportResultOk && env.reportResultResponses > 0 && env.reportWinOk
    && config.reportWinUrlGenerationFlag && !config.auction.scope.TopLevel?
    && (ad.id in dispatched.adData ==> ad.score.owner in config.buyersWithReportWinEnabled)
    && (ad.id !in dispatched.adData ==> ad.score.owner in config.protectedAppSignalsBuyersWithReportWinEnabled)
  }

  lemma MembersOf(log: seq<Event>)
    ensures forall e :: e in log <==> exists k :: 0 <= k < |log| && log[k] == e
  {
  }

  /** Which of the other reporting calls are made: they are the third event, if at all. */
  lemma ReportingCallsIff(
    config: Config, env: Environment, dispatched: Dispatched, winner: Option<Winner>, log: seq<Event>)
    requires ReportsFor(config, env, dispatched, winner, log)
    ensures |log| > 2 && log[0] == ScoreAdsDispatched && log[1] == ScoreAdsReturned
    ensures log[2] == ReportResultDispatched <==>
              && winner.Some? && config.enableReportResultUrlGeneration && config.sellerAndBuyerCodeIsolation
              && env.reportResultOk
    ensures log[2] == ReportingDispatched <==>
              && winner.Some? && config.enableReportResultUrlGeneration && !config.sellerAndBuyerCodeIsolation
              && env.reportingOk && !ReportAborts(config, env, winner.value.ad)
              && log != [ScoreAdsDispatched, ScoreAdsReturned, Finished(Cancelled)]
    ensures log[2] == ProcessAborted <==> winner.Some? && ReportAborts(config, env, winner.value.ad)
  {
  }

  /** How such a run ends: aborted, cancelled, or with OK, after a first Finish if the response cannot be encrypted. */
  lemma ReportingEnds(
    config: Config, env: Environment, dispatched: Dispatched, winner: Option<Winner>, log: seq<Event>)
    requires ReportsFor(config, env, dispatched, winner, log)
    ensures |log| > 2
    ensures var last := log[|log| - 1];
      && last in {Finished(OK), Finished(Cancelled), ProcessAborted}
      && (last == Finished(Cancelled) ==>
            config.enableCancellation && winner.Some? && config.enableReportResultUrlGeneration)
      && (last == Finished(OK) ==> (log[|log| - 2] == Finished(Internal) <==> !env.encrypted))
  {
  }

  /** Who gets a reportWin call, in whatever run that got its scores. */
  lemma ReportWinDispatchedIff(
    config: Config, env: Environment, dispatched: Dispatched, winner: Option<Winner>, log: seq<Event>)
    requires ReportsFor(config, env, dispatched, winner, log)
    ensures ReportWinDispatched in log <==>
              && winner.Some? && WantsReportWin(config, env, dispatched, winner.value.ad)
              && Finished(Cancelled) !in log
  {
    MembersOf(log);
    if ReportWinDispatched in log {
      assert |log| > 4 && log[4] == ReportWinDispatched;
    }
  }

  // ---------- the response read at the winner's position ----------

  /** The callback takes the id of the winner from the responses as they came, at the winner's position among the
      sorted ads; reading a failed response there aborts the process. */
  predicate FailedAt(run: Run, k: int) {
    0 <= k < |run.responses| && run.responses[k].ExecutionFailed?
  }

  ghost predicate SomeChoiceAborts(config: Config, run: Run) {
    exists parsed: seq<ScoredAd>, winners, ghosts, winnerIndex, ghostWinners ::
      && Selected(config.auction, Collected(config, run), parsed, winners, ghosts, winnerIndex, ghostWinners)
      && FailedAt(run, winnerIndex)
  }

  lemma CandidateCanWin(
    config: Config, run: Run, parsed: seq<ScoredAd>, winners: seq<nat>, w: nat)
    requires multiset(parsed) == multiset(Survivors(config.auction, Collected(config, run)))
    requires SortedDescending(parsed) && TiesWithFirst(parsed, Winnables(parsed), |parsed|, winners)
    requires w in winners && FailedAt(run, w)
    ensures SomeChoiceAborts(config, run)
  {
    var ghosts := CandidatesExist(parsed, GhostEligibles(parsed), |parsed|);
    var ghostWinners := ghosts[..Min(config.auction.numAllowedGhostWinners, |ghosts|)];
    assert forall g :: g in ghostWinners ==> g in ghosts;
    assert Selected(config.auction, Collected(config, run), parsed, winners, ghosts, w, ghostWinners);
  }

  /** For given responses some choice of a winner aborts exactly if a winner candidate stands, in whatever order the
      sort leaves, at the position of a failed response. */
  lemma SomeChoiceAbortsIff(config: Config, run: Run, parsed: seq<ScoredAd>, winners: seq<nat>)
    requires multiset(parsed) == multiset(Survivors(config.auction, Collected(config, run)))
    requires SortedDescending(parsed) && TiesWithFirst(parsed, Winnables(parsed), |parsed|, winners)
    ensures SomeChoiceAborts(config, run) <==> exists w :: w in winners && FailedAt(run, w)
  {
    if SomeChoiceAborts(config, run) {
      var parsed', winners', ghosts, winnerIndex, ghostWinners :|
        && Selected(config.auction, Collected(config, run), parsed', winners', ghosts, winnerIndex, ghostWinners)
        && FailedAt(run, winnerIndex);
      CandidatePositionsAreFixed(parsed, parsed', winners, winners');
      assert winnerIndex in winners;
    }
    if w :| w in winners && FailedAt(run, w) {
      CandidateCanWin(config, run, parsed, winners, w);
    }
  }

  /** Where every execution succeeded, no choice aborts. */
  lemma NoFailedResponseNoAbort(config: Config, run: Run)
    requires forall response :: response in run.responses ==> !response.ExecutionFailed?
    ensures !SomeChoiceAborts(config, run)
  {
  }

  /** One ad whose execution failed, and one scored 1: the winner's position is 0, where the failed response is. */
  lemma FailedResponseAborts(config: Config, run: Run)
    requires config.auction == Auction(SingleSeller, "", 0) && !config.enforceKAnon
    requires run == Run(
               Dispatched(map["a" := ProtectedAudience("buyer", "ig", 1.0, "", "url", true)], map[]),
               [ExecutionFailed, Scored("a", ScoreAdOutput(1.0, 0.0, "", 0.0, false, Number))])
    ensures SomeChoiceAborts(config, run)
  {
    var collect := r => CollectOne(config.enforceKAnon, run.dispatched, r);
    assert run.responses[1..][1..] == [] && run.responses[1..][0] == run.responses[1];
    var ad := collect(run.responses[1]).value;
    assert FilterMap(collect, run.responses[1..]) == [ad];
    assert Collected(config, run) == [ad];
    assert [ad][1..] == [];
    var survivor := Survivor(config.auction, ad).value;
    assert Survivors(config.auction, [ad]) == [survivor];
    assert Winnable([survivor], 0);
    CandidateCanWin(config, run, [survivor], [0], 0);
  }

  /** Every position of the sorted ads is one of the responses. */
  lemma PositionsAreResponses(config: Config, run: Run, parsed: seq<ScoredAd>)
    requires multiset(parsed) == multiset(Survivors(config.auction, Collected(config, run)))
    ensures |parsed| <= |run.responses|
  {
    SameLength(parsed, Survivors(config.auction, Collected(config, run)));
    FilterMapLength(ad => Survivor(config.auction, ad), Collected(config, run));
    FilterMapLength(r => CollectOne(config.enforceKAnon, run.dispatched, r), run.responses);
  }

  lemma SelectionIndices(
    config: Config, run: Run, parsed: seq<ScoredAd>, winners: seq<nat>, ghosts: seq<nat>, winnerIndex: int,
    ghostWinnerIndices: seq<nat>)
    requires Selected(config.auction, Collected(config, run), parsed, winners, ghosts, winnerIndex, ghostWinnerIndices)
    ensures -1 <= winnerIndex < |parsed|
    ensures forall ad :: ad in parsed ==> run.dispatched.Knows(ad.id)
    ensures forall q :: 0 <= q < |ghostWinnerIndices| ==> ghostWinnerIndices[q] < |parsed|
  {
    SurvivorsTrace(config.auction, config.enforceKAnon, run.dispatched, run.responses, parsed);
    WinnerOutcome(config.auction, Collected(config, run), parsed, winners, ghosts, winnerIndex, ghostWinnerIndices);
    assert forall q :: 0 <= q < |ghostWinnerIndices| ==> ghostWinnerIndices[q] in ghosts;
  }

  /** A k-anonymous ad that was scored, and that neither the checks nor the seller reject, scored no better than the
      winner; and without a winner its score is not positive. */
  lemma NobodyBeatsTheWinner(
    config: Config, run: Run, winner: Option<Winner>, ghostWinners: seq<ScoredAd>, response: DispatchResponse,
    ad: ScoredAd)
    requires IsOutcome(config, run, winner, ghostWinners)
    requires response in run.responses && ScoredBy(config.enforceKAnon, run.dispatched, response, ad)
    requires !WrongCurrency(config.auction, ad) && !Tampered(config.auction, ad) && SellersReason(ad) == None
    requires config.auction.scope.DeviceComponent? ==> ad.score.allowComponentAuction
    requires config.enforceKAnon ==> run.dispatched.Ad(ad.id).kAnon
    ensures response.output.desirability <=
              if winner.Some? then winner.value.ad.score.desirability else 0.0
  {
    CollectedIff(config, run, ad);
    DroppedIff(config.auction, ad);
    var kept := Survivor(config.auction, ad).value;
    FilterMapMember(x => Survivor(config.auction, x), Collected(config, run), kept);
    assert kept in Survivors(config.auction, Collected(config, run)) && kept.kAnon;
  }

  /** The winner's score is what an answer gave for it, and no check and no seller's reason speaks against it. */
  lemma WinnerWasScored(config: Config, run: Run, winner: Winner, ghostWinners: seq<ScoredAd>)
    requires IsOutcome(config, run, Some(winner), ghostWinners)
    ensures exists response, ad ::
              && response in run.responses && ScoredBy(config.enforceKAnon, run.dispatched, response, ad)
              && winner.ad.id == ad.id
              && winner.ad.score.desirability == response.output.desirability > 0.0
              && !WrongCurrency(config.auction, ad) && !Tampered(config.auction, ad) && SellersReason(ad) == None
              && (config.auction.scope.DeviceComponent? ==> response.output.allowComponentAuction)
              && (config.enforceKAnon ==> run.dispatched.Ad(ad.id).kAnon)
              && winner.ad.score.bid == (if FallsBack(config.auction, ad) then run.dispatched.Ad(ad.id).bid
                                         else response.output.bid)
              && winner.ad.score.bidCurrency == (if FallsBack(config.auction, ad)
                                                 then run.dispatched.Ad(ad.id).bidCurrency
                                                 else response.output.bidCurrency)
  {
    FilterMapMember(x => Survivor(config.auction, x), Collected(config, run), winner.ad);
    var ad :| ad in Collected(config, run) && Survivor(config.auction, ad) == Some(winner.ad);
    CollectedIff(config, run, ad);
    DroppedIff(config.auction, ad);
    SurvivorIsTheAd(config.auction, ad);
  }

  lemma SelectionIsOutcome(
    config: Config, run: Run, parsed: seq<ScoredAd>, winners: seq<nat>, ghosts: seq<nat>, winnerIndex: int,
    ghostWinnerIndices: seq<nat>, winner: Option<Winner>, ghostWinners: seq<ScoredAd>)
    requires Selected(config.auction, Collected(config, run), parsed, winners, ghosts, winnerIndex, ghostWinnerIndices)
    requires forall q :: 0 <= q < |ghostWinnerIndices| ==> ghostWinnerIndices[q] < |parsed|
    requires winner == None <==> winnerIndex == -1
    requires winner.Some? ==> 0 <= winnerIndex < |parsed| && winner.value.ad == parsed[winnerIndex]
    requires winner.Some? ==>
               multiset(winner.value.rejectionReasons) ==
               multiset(ReasonsDue(config.auction, Collected(config, run)))
    requires |ghostWinners| == |ghostWinnerIndices|
    requires forall q :: 0 <= q < |ghostWinners| ==> ghostWinners[q] == parsed[ghostWinnerIndices[q]]
    ensures IsOutcome(config, run, winner, ghostWinners)
  {
    SurvivorsTrace(config.auction, config.enforceKAnon, run.dispatched, run.responses, parsed);
    WinnerOutcome(config.auction, Collected(config, run), parsed, winners, ghosts, winnerIndex, ghostWinnerIndices);
    GhostWinnerOutcome(config.auction, Collected(config, run), parsed, winners, ghosts, winnerIndex,
      ghostWinnerIndices);
    forall g | g in ghostWinners
      ensures exists k :: k in ghosts && k < |parsed| && parsed[k] == g
    {
      var q :| 0 <= q < |ghostWinnerIndices| && ghostWinners[q] == g;
      assert ghostWinnerIndices[q] in ghosts;
    }
    PermutationMembers(parsed, Survivors(config.auction, Collected(config, run)));
  }

  /** The reported other bids come from the ads with a top score, none of them the winner or a ghost candidate. */
  ghost predicate AreOtherBids(
    config: Config, run: Run, adScores: map<string, AdScore>, parsed: seq<ScoredAd>, ghosts: seq<nat>,
    winnerIndex: int, index: map<real, seq<nat>>, otherBids: OtherBidsMap)
    requires forall ad :: ad in parsed ==> run.dispatched.Knows(ad.id)
  {
    if config.auction.scope.TopLevel? then otherBids == map[]
    else
      exists scores, listed, pairs ::
        && Lineup(index.Keys, scores)
        && ListedFor(parsed, ghosts, winnerIndex, TopScores(scores), listed)
        && PricedAll(config.auction.sellerCurrency, run.dispatched, adScores, parsed, listed, pairs)
        && Lists(otherBids, pairs)
  }

  /** The pair reported for an ad: the dispatched ad's owner, and without a seller currency its bid; with one, the bid
      that an answer about this ad gives in the seller's currency. */
  ghost predicate ReportedAs(config: Config, run: Run, ad: ScoredAd, pair: (string, real)) {
    && run.dispatched.Knows(ad.id) && pair.0 == run.dispatched.Ad(ad.id).owner
    && (config.auction.sellerCurrency == "" ==> pair.1 == run.dispatched.Ad(ad.id).bid)
    && (config.auction.sellerCurrency != "" ==>
          exists response ::
            && response in run.responses && response.Scored? && response.id == ad.id
            && pair.1 == response.output.incomingBidInSellerCurrency)
  }

  /** The other bids of a selection, when the int comparator finds the two top scores and neither is negative: every
      owner's list is, up to order, the bids of its ads with one of the two highest positive scores, except the winner
      and the ghost candidates. */
  ghost predicate AreTopTwoBids(
    config: Config, run: Run, parsed: seq<ScoredAd>, ghosts: seq<nat>, winnerIndex: nat, otherBids: OtherBidsMap)
  {
    if config.auction.scope.TopLevel? then otherBids == map[]
    else
      TopScoresFixed(OtherScores(parsed, ghosts)) && NoNegativeSecond(parsed, ghosts) ==>
        forall owner, reported ::
          Increasing(reported) && (forall k: nat :: k in reported <==> Reported(parsed, ghosts, winnerIndex, k)) ==>
            AreBidsOf(config, run, parsed, owner, reported, otherBids)
  }

  ghost predicate AreBidsOf(
    config: Config, run: Run, parsed: seq<ScoredAd>, owner: string, reported: seq<nat>, otherBids: OtherBidsMap)
  {
    exists prices: seq<(string, real)> ::
      && AllReportedAs(config, run, parsed, reported, prices)
      && HoldsBids(otherBids, owner, prices)
  }

  ghost predicate AllReportedAs(
    config: Config, run: Run, parsed: seq<ScoredAd>, reported: seq<nat>, prices: seq<(string, real)>)
  {
    && |prices| == |reported|
    && forall q :: 0 <= q < |reported| ==>
         reported[q] < |parsed| && ReportedAs(config, run, parsed[reported[q]], prices[q])
  }

  /** A recorded score is that of an answer. */
  lemma RecordedScoreWasAnswered(config: Config, run: Run, adScores: map<string, AdScore>, id: string)
    requires RecordsOriginals(adScores, Collected(config, run)) && id in adScores
    ensures exists response ::
              && response in run.responses && response.Scored? && response.id == id
              && adScores[id].incomingBidInSellerCurrency == response.output.incomingBidInSellerCurrency
  {
    var ad :| ad in Collected(config, run) && ad.id == id && ad.score == adScores[id];
    CollectedIff(config, run, ad);
  }

  lemma PricesWereAnswered(
    config: Config, run: Run, adScores: map<string, AdScore>, parsed: seq<ScoredAd>, reported: seq<nat>,
    prices: seq<(string, real)>)
    requires multiset(parsed) == multiset(Survivors(config.auction, Collected(config, run)))
    requires RecordsOriginals(adScores, Collected(config, run))
    requires forall ad :: ad in parsed ==> run.dispatched.Knows(ad.id)
    requires PricedAll(config.auction.sellerCurrency, run.dispatched, adScores, parsed, reported, prices)
    ensures AllReportedAs(config, run, parsed, reported, prices)
  {
    forall q | 0 <= q < |reported| ensures ReportedAs(config, run, parsed[reported[q]], prices[q]) {
      var ad := parsed[reported[q]];
      PermutationMembers(parsed, Survivors(config.auction, Collected(config, run)));
      FilterMapMember(x => Survivor(config.auction, x), Collected(config, run), ad);
      assert ad.id in adScores;
      RecordedScoreWasAnswered(config, run, adScores, ad.id);
    }
  }

  lemma OtherBidsOfSelection(
    config: Config, run: Run, adScores: map<string, AdScore>, parsed: seq<ScoredAd>, winners: seq<nat>,
    ghosts: seq<nat>, winnerIndex: nat, ghostWinnerIndices: seq<nat>, index: map<real, seq<nat>>,
    otherBids: OtherBidsMap)
    requires Selected(config.auction, Collected(config, run), parsed, winners, ghosts, winnerIndex, ghostWinnerIndices)
    requires ScoreIndex(parsed, ghosts, |parsed|, index)
    requires forall ad :: ad in parsed ==> run.dispatched.Knows(ad.id)
    requires RecordsOriginals(adScores, Collected(config, run))
    requires AreOtherBids(config, run, adScores, parsed, ghosts, winnerIndex, index, otherBids)
    ensures AreTopTwoBids(config, run, parsed, ghosts, winnerIndex, otherBids)
  {
    WinnerOutcome(config.auction, Collected(config, run), parsed, winners, ghosts, winnerIndex, ghostWinnerIndices);
    GhostWinnerOutcome(config.auction, Collected(config, run), parsed, winners, ghosts, winnerIndex,
      ghostWinnerIndices);
    hide Collected, RecordsOriginals, Lists, Lineup, ScoreIndex, PricedAll, HoldsBids, AllReportedAs;
    if !config.auction.scope.TopLevel? && TopScoresFixed(OtherScores(parsed, ghosts)) &&
       NoNegativeSecond(parsed, ghosts) {
      forall owner, reported |
          Increasing(reported) && forall k: nat :: k in reported <==> Reported(parsed, ghosts, winnerIndex, k)
        ensures AreBidsOf(config, run, parsed, owner, reported, otherBids)
      {
        var scores, listed, pairs :|
          && Lineup(index.Keys, scores)
          && ListedFor(parsed, ghosts, winnerIndex, TopScores(scores), listed)
          && PricedAll(config.auction.sellerCurrency, run.dispatched, adScores, parsed, listed, pairs)
          && Lists(otherBids, pairs);
        var prices := OtherBidsAreTopTwo(config.auction.sellerCurrency, run.dispatched, adScores, parsed, ghosts,
          winnerIndex, index, scores, listed, pairs, otherBids, reported, owner);
        PricesWereAnswered(config, run, adScores, parsed, reported, prices);
      }
    }
  }

  /** The response's other bids are those of a selection among the survivors with this winner. */
  ghost predicate ReportsOtherBids(config: Config, run: Run, winner: Winner) {
    exists parsed: seq<ScoredAd>, winners, ghosts, winnerIndex: nat, ghostWinnerIndices ::
      && Selected(config.auction, Collected(config, run), parsed, winners, ghosts, winnerIndex, ghostWinnerIndices)
      && winnerIndex < |parsed| && winner.ad == parsed[winnerIndex] && !FailedAt(run, winnerIndex)
      && AreTopTwoBids(config, run, parsed, ghosts, winnerIndex, winner.otherBids)
  }

  lemma WinnerReportsOtherBids(
    config: Config, run: Run, adScores: map<string, AdScore>, parsed: seq<ScoredAd>, winners: seq<nat>,
    ghosts: seq<nat>, winnerIndex: nat, ghostWinnerIndices: seq<nat>, index: map<real, seq<nat>>, winner: Winner)
    requires Selected(config.auction, Collected(config, run), parsed, winners, ghosts, winnerIndex, ghostWinnerIndices)
    requires ScoreIndex(parsed, ghosts, |parsed|, index)
    requires forall ad :: ad in parsed ==> run.dispatched.Knows(ad.id)
    requires winnerIndex < |parsed| && winner.ad == parsed[winnerIndex] && !FailedAt(run, winnerIndex)
    requires AreOtherBids(config, run, adScores, parsed, ghosts, winnerIndex, index, winner.otherBids)
    requires RecordsOriginals(adScores, Collected(config, run))
    ensures ReportsOtherBids(config, run, winner)
  {
    OtherBidsOfSelection(config, run, adScores, parsed, winners, ghosts, winnerIndex, ghostWinnerIndices, index,
      winner.otherBids);
  }

  class ScoreAdsReactor {
    const config: Config
    const env: Environment
    var log: seq<Event>
    var dispatched: Dispatched
    var adScores: map<string, AdScore>
    var winner: Option<Winner>
    var ghostWinners: seq<ScoredAd>
    var buyerOrigin: string
    var egressPayloadSet: bool

    constructor (config: Config, env: Environment)
      requires |env.protectedAudienceIds| == |env.protectedAudienceAds|
      requires |env.protectedAppSignalsIds| == |env.protectedAppSignalsAds|
      ensures this.config == config && this.env == env
      ensures log == [] && winner == None && ghostWinners == [] && buyerOrigin == "" && !egressPayloadSet
    {
      this.config, this.env := config, env;
      log, adScores, winner, ghostWinners := [], map[], None, [];
      dispatched, buyerOrigin, egressPayloadSet := Dispatched(map[], map[]), "", false;
    }

    ghost predicate At(stage: Stage)
      reads `log
    {
      StageAfter(log) == Some(stage)
    }

    method Record(event: Event)
      requires StageAfter(log).Some? && Next(StageAfter(log).value, event).Some?
      modifies `log
      ensures StageAfter(log) == Next(StageAfter(old(log)).value, event)
      ensures log == old(log) + [event]
    {
      Automaton.AfterOne(Next, Start, log, event);
      log := log + [event];
    }

    /** Nothing has ended the run yet. */
    ghost predicate Open()
      reads `log
    {
      StageAfter(log).Some? && !IsEnd(StageAfter(log).value)
    }

    /** The run is over, in the stage its last event leads to. */
    ghost predicate Ended()
      reads `log
    {
      log != [] && At(EndOf(env, log[|log| - 1]))
    }

    method FinishWithStatus(status: ErrorStatus)
      requires Open()
      modifies `log
      ensures Ended() && log == old(log) + [Finished(status)]
    {
      Record(Finished(status));
    }

    method EncryptAndFinishOK()
      requires Open()
      modifies `log
      ensures Ended() && log == old(log) + OkEnd(env)
    {
      if !env.encrypted {
        Record(Finished(Internal));
      }
      Record(Finished(OK));
    }

    /** Builds the scoring requests; a status means that the RPC must be finished with it instead. */
    method BuildDispatchRequests() returns (refusal: Option<ErrorStatus>)
      requires |env.protectedAudienceIds| == |env.protectedAudienceAds|
      requires |env.protectedAppSignalsIds| == |env.protectedAppSignalsAds|
      modifies `dispatched
      ensures refusal == if Dispatchable(config, env) then None else Some(RefusalStatus(config, env))
      ensures refusal == None && !config.auction.scope.TopLevel? ==>
                forall id :: dispatched.Knows(id) ==>
                  dispatched.Ad(id) in env.protectedAudienceAds || dispatched.Ad(id) in env.protectedAppSignalsAds
    {
      if config.auction.scope.TopLevel? {
        if !env.anyComponentResult {
          return Some(Internal);
        }
        if !env.sameGenerationIds {
          return Some(InvalidArgument);
        }
        dispatched := env.componentAds;
        return if dispatched.adData == map[] && dispatched.protectedAppSignalsAdData == map[]
          then Some(Internal) else None;
      }
      if env.scoringSignals.Some? {
        return env.scoringSignals;
      }
      var audience, audienceRequests :=
        PopulateDispatchRequests(env.protectedAudienceAds, env.protectedAudienceIds, map[]);
      var appSignals, appSignalsRequests :=
        PopulateDispatchRequests(env.protectedAppSignalsAds, env.protectedAppSignalsIds, map[]);
      dispatched := Dispatched(audience, appSignals);
      SomeRequestBuilt(env.protectedAudienceIds, audience, audienceRequests);
      SomeRequestBuilt(env.protectedAppSignalsIds, appSignals, appSignalsRequests);
      return if audienceRequests + appSignalsRequests == [] then Some(Internal) else None;
    }

    /** How a run can end: cancelled before the selection, refused, not dispatched, or with the auction's outcome and
        the reports the winner calls for; or aborted before there is a response. */
    ghost predicate Concluded()
      reads this
    {
      || (Unselected() && config.enableCancellation && log == [Finished(Cancelled)])
      || (Unselected() && config.enableCancellation &&
          log == [ScoreAdsDispatched, ScoreAdsReturned, Finished(Cancelled)])
      || (Unselected() && !Dispatchable(config, env) && log == [Finished(RefusalStatus(config, env))])
      || (Unselected() && Dispatchable(config, env) && !env.scoreDispatchOk && log == [Finished(Unknown)])
      || (&& Dispatchable(config, env) && env.scoreDispatchOk && winner == None
          && DispatchedFromRequest()
          && SomeChoiceAborts(config, Answers())
          && log == [ScoreAdsDispatched, ScoreAdsReturned, ProcessAborted])
      || (&& Dispatchable(config, env) && env.scoreDispatchOk
          && DispatchedFromRequest()
          && IsResponse()
          && ReportsFor(config, env, dispatched, winner, log))
    }

    /** The response holds the auction's outcome, and for a winner the other bids. */
    ghost predicate IsResponse()
      reads `dispatched, `adScores, `winner, `ghostWinners
    {
      && IsOutcome(config, Answers(), winner, ghostWinners)
      && (winner.Some? ==> ReportsOtherBids(config, Answers(), winner.value))
      && (winner.Some? ==> RecordsOriginals(adScores, Collected(config, Answers())))
    }

    /** reportWin is called exactly for a winner that asks for it, unless the client cancelled. */
    ghost predicate ReportsWin()
      reads `log, `dispatched, `winner
    {
      ReportWinDispatched in log <==>
        && winner.Some? && WantsReportWin(config, env, dispatched, winner.value.ad)
        && Finished(Cancelled) !in log
    }

    lemma ConcludedReportsWin()
      requires Concluded()
      ensures ReportsWin()
    {
      if ReportsFor(config, env, dispatched, winner, log) {
        ReportWinDispatchedIff(config, env, dispatched, winner, log);
      }
    }

    /** What an aborted run has read in vain: with a winner in the response the signals of the winner's buyer, and
        otherwise the failed response at a winner's position. */
    ghost predicate AbortsOnlyOnMissingAnswers()
      requires log != []
      reads `log, `dispatched, `winner
    {
      var aborted := log[|log| - 1] == ProcessAborted;
      if winner.Some? then aborted <==> ReportAborts(config, env, winner.value.ad)
      else aborted ==> SomeChoiceAborts(config, Answers())
    }

    lemma ConcludedAborts()
      requires Concluded() && log != []
      ensures AbortsOnlyOnMissingAnswers()
    {
      hide SomeChoiceAborts, RefusalStatus, Dispatchable, IsOutcome, ReportsOtherBids, ReportAborts, Collected;
      if winner.Some? {
        ReportAbortsIff(config, env, dispatched, winner.value.ad, [ScoreAdsDispatched, ScoreAdsReturned], log);
      }
    }

    /** Whatever a run that did not abort has selected, and whatever winner it has, is an outcome of the auction. */
    lemma ConcludedSelects()
      requires Concluded() && log != []
      ensures winner.Some? || (ghostWinners != [] && log[|log| - 1] != ProcessAborted) ==>
                DispatchedFromRequest() && IsOutcome(config, Answers(), winner, ghostWinners)
    {
      hide SomeChoiceAborts, RefusalStatus, Dispatchable, IsOutcome, ReportsOtherBids, ReportsFor, Collected;
    }

    ghost predicate Unselected()
      reads `winner, `ghostWinners
    {
      winner == None && ghostWinners == []
    }

    ghost predicate DispatchedFromRequest()
      reads `dispatched
    {
      !config.auction.scope.TopLevel? ==> forall id :: dispatched.Knows(id) ==>
        dispatched.Ad(id) in env.protectedAudienceAds + env.protectedAppSignalsAds
    }

    /** Finishes a run that never got to score anything. */
    method FinishUnscored(status: ErrorStatus)
      requires log == [] && Unselected()
      requires || (config.enableCancellation && status == Cancelled)
               || (!Dispatchable(config, env) && status == RefusalStatus(config, env))
               || (Dispatchable(config, env) && !env.scoreDispatchOk && status == Unknown)
      modifies `log
      ensures Ended() && Concluded()
    {
      FinishWithStatus(status);
      assert log == [Finished(status)];
    }

    method Execute()
      requires log == [] && Unselected() && buyerOrigin == "" && !egressPayloadSet
      requires |env.protectedAudienceIds| == |env.protectedAudienceAds|
      requires |env.protectedAppSignalsIds| == |env.protectedAppSignalsAds|
      modifies this
      ensures Ended() && Concluded() && ReportsWin()
      ensures AbortsOnlyOnMissingAnswers()
      ensures FinishCalls(log) == match log[|log| - 1]
                case ProcessAborted => 0
                case _ => if log[|log| - 1] == Finished(OK) && !env.encrypted then 2 else 1
    {
      RunToTheEnd();
      ConcludedReportsWin();
      ConcludedAborts();
      FinishCallsByStage(log);
    }

    method RunToTheEnd()
      requires log == [] && Unselected() && buyerOrigin == "" && !egressPayloadSet
      requires |env.protectedAudienceIds| == |env.protectedAudienceAds|
      requires |env.protectedAppSignalsIds| == |env.protectedAppSignalsAds|
      modifies this
      ensures Ended() && Concluded()
    {
      var cancelled := IsCancelled(config.enableCancellation);
      if cancelled {
        FinishUnscored(Cancelled);
      } else {
        var refusal := BuildDispatchRequests();
        if refusal.Some? {
          FinishUnscored(refusal.value);
        } else if !env.scoreDispatchOk {
          FinishUnscored(Unknown);
        } else {
          DispatchScoreAds();
        }
      }
    }

    method DispatchScoreAds()
      requires log == [] && Unselected() && buyerOrigin == "" && !egressPayloadSet
      requires Dispatchable(config, env) && env.scoreDispatchOk && DispatchedFromRequest()
      modifies this
      ensures Ended() && Concluded()
    {
      Record(ScoreAdsDispatched);
      Record(ScoreAdsReturned);
      assert log == [ScoreAdsDispatched, ScoreAdsReturned];
      var cancelled := IsCancelled(config.enableCancellation);
      if cancelled {
        FinishCancelled();
      } else {
        ScoreAdsCallback();
      }
    }

    /** The client has cancelled when the scores come back. */
    method FinishCancelled()
      requires At(ScoresKnown) && log == [ScoreAdsDispatched, ScoreAdsReturned]
      requires Unselected() && config.enableCancellation
      modifies `log
      ensures Ended() && Concluded()
    {
      FinishWithStatus(Cancelled);
      assert log == [ScoreAdsDispatched, ScoreAdsReturned, Finished(Cancelled)];
    }

    method ScoreAdsCallback()
      requires At(ScoresKnown) && winner == None && ghostWinners == [] && buyerOrigin == "" && !egressPayloadSet
      modifies this
      ensures Ended() && dispatched == old(dispatched)
      ensures || (winner == None && SomeChoiceAborts(config, Answers()) && log == old(log) + [ProcessAborted])
              || (IsResponse() && Responds(old(log)))
    {
      hide StageAfter, IsOutcome, ReportsOtherBids, SomeChoiceAborts;
      var aborted := BuildResponse();
      if aborted {
        Record(ProcessAborted);
      } else {
        Respond();
      }
    }

    method BuildResponse() returns (aborted: bool)
      requires winner == None && ghostWinners == []
      modifies `adScores, `winner, `ghostWinners
      ensures if aborted then winner == None && SomeChoiceAborts(config, Answers()) else IsResponse()
      ensures winner.Some? ==> dispatched.Knows(winner.value.ad.id)
    {
      var parsed, data;
      parsed, data, aborted := SelectWinners();
      if aborted {
        ChoiceAborts(parsed, data.winnerCandIndices, data.ghostWinnerCandIndices, data.winnerIndex,
          data.ghostWinnerIndices);
      }
    }

    ghost predicate Responds(before: seq<Event>)
      reads `log, `dispatched, `winner
    {
      if winner == None then log == before + OkEnd(env)
      else ReportsAfter(config, env, dispatched, winner.value.ad, before, log)
    }

    /** The response is complete; what is left are the reports. */
    method Respond()
      requires At(ScoresKnown) && buyerOrigin == "" && !egressPayloadSet
      requires winner.Some? ==> dispatched.Knows(winner.value.ad.id)
      modifies `log, `buyerOrigin, `egressPayloadSet
      ensures Ended() && Responds(old(log))
    {
      if winner == None {
        EncryptAndFinishOK();
      } else {
        DoWinAndDebugReporting(winner.value.ad);
      }
    }

    lemma ChoiceAborts(
      parsed: seq<ScoredAd>, winners: seq<nat>, ghosts: seq<nat>, winnerIndex: int, ghostWinnerIndices: seq<nat>)
      requires HasSelected(parsed, winners, ghosts, winnerIndex, ghostWinnerIndices)
      requires FailedAt(Answers(), winnerIndex)
      ensures SomeChoiceAborts(config, Answers())
    {
    }

    /** What the callback looks at. */
    ghost function Answers(): Run
      reads `dispatched
    {
      Run(dispatched, env.responses)
    }

    ghost predicate HasSelected(
      parsed: seq<ScoredAd>, winners: seq<nat>, ghosts: seq<nat>, winnerIndex: int, ghostWinnerIndices: seq<nat>)
      reads `dispatched, `adScores
    {
      && Selected(config.auction, Collected(config, Answers()), parsed, winners, ghosts, winnerIndex,
           ghostWinnerIndices)
      && RecordsOriginals(adScores, Collected(config, Answers()))
      && (forall ad :: ad in parsed ==> dispatched.Knows(ad.id))
      && -1 <= winnerIndex < |parsed| <= |env.responses|
      && (forall q :: 0 <= q < |ghostWinnerIndices| ==> ghostWinnerIndices[q] < |parsed|)
    }

    /** The part of the callback that decides the response; parsed and data say what it was taken from. It aborts
        exactly if there is a winner and the response at its sorted position failed. */
    method SelectWinners() returns (parsed: seq<ScoredAd>, data: ScoringData, aborted: bool)
      requires winner == None && ghostWinners == []
      modifies `adScores, `winner, `ghostWinners
      ensures HasSelected(parsed, data.winnerCandIndices, data.ghostWinnerCandIndices, data.winnerIndex,
                data.ghostWinnerIndices)
      ensures aborted <==> data.winnerIndex != -1 && FailedAt(Answers(), data.winnerIndex)
      ensures if aborted then winner == None else IsResponse()
      ensures winner.Some? ==> IsWinner(parsed, data.ghostWinnerCandIndices, data.winnerIndex, data.scoreAdMap)
    {
      hide Selected, Collected, RecordsOriginals, ScoreIndex, IsOutcome, ReportsOtherBids, AreOtherBids;
      parsed, data := FindWinners();
      AddGhostWinnersToResponse(data.ghostWinnerIndices, parsed);
      aborted := data.winnerIndex != -1 && env.responses[data.winnerIndex].ExecutionFailed?;
      if !aborted {
        CompleteResponse(parsed, data);
      }
    }

    /** Adds the winner, if there is one, next to the ghost winners. */
    method CompleteResponse(parsed: seq<ScoredAd>, data: ScoringData)
      requires winner == None
      requires HasSelected(parsed, data.winnerCandIndices, data.ghostWinnerCandIndices, data.winnerIndex,
                 data.ghostWinnerIndices)
      requires ScoreIndex(parsed, data.ghostWinnerCandIndices, |parsed|, data.scoreAdMap)
      requires multiset(data.adRejectionReasons) ==
                 multiset(ReasonsDue(config.auction, Collected(config, Answers())))
      requires |ghostWinners| == |data.ghostWinnerIndices|
      requires forall q :: 0 <= q < |ghostWinners| ==> ghostWinners[q] == parsed[data.ghostWinnerIndices[q]]
      requires !FailedAt(Answers(), data.winnerIndex)
      modifies `winner
      ensures IsResponse()
      ensures winner.Some? ==> IsWinner(parsed, data.ghostWinnerCandIndices, data.winnerIndex, data.scoreAdMap)
    {
      if data.winnerIndex != -1 {
        AddWinnerToResponse(data, parsed);
      }
      RespondWith(parsed, data.winnerCandIndices, data.ghostWinnerCandIndices, data.winnerIndex,
        data.ghostWinnerIndices, data.scoreAdMap);
    }

    /** The winner in the response is the ad at this position, with the other bids taken from the index. */
    ghost predicate IsWinner(parsed: seq<ScoredAd>, ghosts: seq<nat>, winnerIndex: int, index: map<real, seq<nat>>)
      reads `dispatched, `adScores, `winner
      requires forall ad :: ad in parsed ==> dispatched.Knows(ad.id)
    {
      && winner.Some? && 0 <= winnerIndex < |parsed| && winner.value.ad == parsed[winnerIndex]
      && AreOtherBids(config, Answers(), adScores, parsed, ghosts, winnerIndex, index, winner.value.otherBids)
    }

    /** What has been written into the response is what it promises. */
    lemma RespondWith(
      parsed: seq<ScoredAd>, winners: seq<nat>, ghosts: seq<nat>, winnerIndex: int, ghostWinnerIndices: seq<nat>,
      index: map<real, seq<nat>>)
      requires HasSelected(parsed, winners, ghosts, winnerIndex, ghostWinnerIndices)
      requires ScoreIndex(parsed, ghosts, |parsed|, index)
      requires |ghostWinners| == |ghostWinnerIndices|
      requires forall q :: 0 <= q < |ghostWinners| ==> ghostWinners[q] == parsed[ghostWinnerIndices[q]]
      requires winner == None <==> winnerIndex == -1
      requires winner.Some? ==>
                 && IsWinner(parsed, ghosts, winnerIndex, index)
                 && !FailedAt(Answers(), winnerIndex)
                 && multiset(winner.value.rejectionReasons) ==
                    multiset(ReasonsDue(config.auction, Collected(config, Answers())))
      ensures IsResponse()
    {
      SelectionIsOutcome(config, Answers(), parsed, winners, ghosts, winnerIndex, ghostWinnerIndices, winner,
        ghostWinners);
      if winner.Some? {
        WinnerReportsOtherBids(config, Answers(), adScores, parsed, winners, ghosts, winnerIndex, ghostWinnerIndices,
          index, winner.value);
      }
    }

    /** Collects the valid responses and runs the selection on them. */
    method FindWinners() returns (parsed: seq<ScoredAd>, data: ScoringData)
      modifies `adScores
      ensures fresh(data)
      ensures HasSelected(parsed, data.winnerCandIndices, data.ghostWinnerCandIndices, data.winnerIndex,
                data.ghostWinnerIndices)
      ensures ScoreIndex(parsed, data.ghostWinnerCandIndices, |parsed|, data.scoreAdMap)
      ensures multiset(data.adRejectionReasons) ==
                multiset(ReasonsDue(config.auction, Collected(config, Answers())))
    {
      var collected := CollectValidRomaResponses(config.enforceKAnon, dispatched, env.responses);
      var ads := new ScoredAd[|collected|](i requires 0 <= i < |collected| => collected[i]);
      assert ads[..] == collected;
      parsed, data, adScores := FindWinningAd(config.auction, ads);
      PositionsAreResponses(config, Answers(), parsed);
      SelectionIndices(config, Answers(), parsed, data.winnerCandIndices,
        data.ghostWinnerCandIndices, data.winnerIndex, data.ghostWinnerIndices);
    }

    method AddWinnerToResponse(data: ScoringData, parsed: seq<ScoredAd>)
      requires 0 <= data.winnerIndex < |parsed|
      requires ScoreIndex(parsed, data.ghostWinnerCandIndices, |parsed|, data.scoreAdMap)
      requires forall ad :: ad in parsed ==> dispatched.Knows(ad.id)
      modifies `winner
      ensures winner.Some? && winner.value.ad == parsed[data.winnerIndex]
      ensures winner.value.rejectionReasons == data.adRejectionReasons
      ensures IsWinner(parsed, data.ghostWinnerCandIndices, data.winnerIndex, data.scoreAdMap)
    {
      var otherBids: OtherBidsMap;
      ghost var scores, listed, pairs;
      otherBids, scores, listed, pairs := PopulateHighestScoringOtherBidsData(
        config.auction, dispatched, adScores, parsed, data.winnerIndex, data.scoreAdMap, data.ghostWinnerCandIndices);
      winner := Some(Winner(parsed[data.winnerIndex], otherBids, data.adRejectionReasons));
    }

    method AddGhostWinnersToResponse(indices: seq<nat>, parsed: seq<ScoredAd>)
      requires ghostWinners == [] && forall q :: 0 <= q < |indices| ==> indices[q] < |parsed|
      modifies `ghostWinners
      ensures |ghostWinners| == |indices|
      ensures forall q :: 0 <= q < |indices| ==> ghostWinners[q] == parsed[indices[q]]
    {
      for k := 0 to |indices|
        invariant |ghostWinners| == k
        invariant forall q :: 0 <= q < k ==> ghostWinners[q] == parsed[indices[q]]
      {
        ghostWinners := ghostWinners + [parsed[indices[k]]];
      }
    }

    method DoWinAndDebugReporting(winningAd: ScoredAd)
      requires At(ScoresKnown) && dispatched.Knows(winningAd.id)
      requires buyerOrigin == "" && !egressPayloadSet
      modifies `log, `buyerOrigin, `egressPayloadSet
      ensures Ended()
      ensures ReportsAfter(config, env, dispatched, winningAd, old(log), log)
    {
      if !config.enableReportResultUrlGeneration {
        EncryptAndFinishOK();
      } else if config.sellerAndBuyerCodeIsolation {
        PerformReportingWithSellerAndBuyerCodeIsolation(winningAd);
      } else {
        PerformReporting(winningAd);
      }
    }

    method PerformReporting(winningAd: ScoredAd)
      requires At(ScoresKnown)
      requires config.enableReportResultUrlGeneration && !config.sellerAndBuyerCodeIsolation
      modifies `log
      ensures Ended()
      ensures if dispatched.Knows(winningAd.id) then ReportsAfter(config, env, dispatched, winningAd, old(log), log)
              else log == old(log) + [Finished(Internal)]
    {
      if !dispatched.Knows(winningAd.id) {
        FinishWithStatus(Internal);
      } else if config.EnableReportWinUrlGeneration() && winningAd.score.owner !in env.perBuyerSignals {
        Record(ProcessAborted);
      } else {
        DispatchReportingRequest();
      }
    }

    method DispatchReportingRequest()
      requires At(ScoresKnown)
      modifies `log
      ensures Ended()
      ensures || (config.enableCancellation && log == old(log) + [Finished(Cancelled)])
              || (!env.reportingOk && log == old(log) + OkEnd(env))
              || (env.reportingOk && log == old(log) + ([ReportingDispatched, ReportingReturned] + OkEnd(env)))
              || (config.enableCancellation && env.reportingOk &&
                  log == old(log) + [ReportingDispatched, ReportingReturned, Finished(Cancelled)])
    {
      var cancelled := IsCancelled(config.enableCancellation);
      if cancelled {
        FinishWithStatus(Cancelled);
      } else if !env.reportingOk {
        EncryptAndFinishOK();
      } else {
        Record(ReportingDispatched);
        Record(ReportingReturned);
        ReportingCallback();
      }
    }

    method ReportingCallback()
      requires At(ReportingDone)
      modifies `log
      ensures Ended()
      ensures log == old(log) + OkEnd(env) || (config.enableCancellation && log == old(log) + [Finished(Cancelled)])
    {
      var cancelled := IsCancelled(config.enableCancellation);
      if cancelled {
        FinishWithStatus(Cancelled);
      } else {
        EncryptAndFinishOK();
      }
    }

    method PerformReportingWithSellerAndBuyerCodeIsolation(winningAd: ScoredAd)
      requires At(ScoresKnown) && buyerOrigin == "" && !egressPayloadSet
      requires config.enableReportResultUrlGeneration && config.sellerAndBuyerCodeIsolation
      modifies `log, `buyerOrigin, `egressPayloadSet
      ensures Ended()
      ensures if dispatched.Knows(winningAd.id) then ReportsAfter(config, env, dispatched, winningAd, old(log), log)
              else log == old(log) + [Finished(Internal)]
    {
      if winningAd.id in dispatched.adData {
        if !config.auction.scope.TopLevel? {
          buyerOrigin := winningAd.score.owner;
        }
        DispatchReportResultRequest();
      } else if winningAd.id in dispatched.protectedAppSignalsAdData {
        if !config.auction.scope.TopLevel? {
          buyerOrigin, egressPayloadSet := winningAd.score.owner, true;
        }
        DispatchReportResultRequest();
      } else {
        FinishWithStatus(Internal);
      }
    }

    method DispatchReportResultRequest()
      requires At(ScoresKnown) && config.enableReportResultUrlGeneration && config.sellerAndBuyerCodeIsolation
      modifies `log
      ensures Ended()
      ensures || log == old(log) + ReportResultTrail(config, env, buyerOrigin, egressPayloadSet)
              || (&& config.enableCancellation && env.reportResultOk
                  && log == old(log) + [ReportResultDispatched, ReportResultReturned, Finished(Cancelled)])
    {
      if !env.reportResultOk {
        EncryptAndFinishOK();
        return;
      }
      Record(ReportResultDispatched);
      Record(ReportResultReturned);
      var cancelled := IsCancelled(config.enableCancellation);
      if cancelled {
        FinishWithStatus(Cancelled);
      } else {
        ReportResultCallback();
      }
    }

    /** The loop over the responses returns in its first round, so only whether there is a response matters. */
    method ReportResultCallback()
      requires At(ResultReported)
      modifies `log
      ensures Ended()
      ensures log == old(log) + ReportWinTrail(config, env, buyerOrigin, egressPayloadSet)
    {
      if env.reportResultResponses == 0 || !config.EnableReportWinUrlGeneration() {
        EncryptAndFinishOK();
        return;
      }
      if !egressPayloadSet {
        if buyerOrigin !in config.buyersWithReportWinEnabled {
          EncryptAndFinishOK();
          return;
        }
      } else {
        if buyerOrigin !in config.protectedAppSignalsBuyersWithReportWinEnabled {
          EncryptAndFinishOK();
          return;
        }
      }
      if env.reportWinOk {
        Record(ReportWinDispatched);
        Record(ReportWinReturned);
      }
      EncryptAndFinishOK();
    }
  }
}
