/** SelectAdReactor as a step system: callbacks of buyers, k-anonymity service, key-value server and auction server
    arrive in any order. */
module SelectAdReactor {
  import opened Sequences
  import opened BidTypes
  import opened BuyerSelection
  import opened CurrencyFilter
  import opened KAnonHashes
  import T = TaskTracker

  datatype Config = Config(
    features: Features, enforceKAnon: bool, fetchSignals: bool, useKvV2: bool, enableCancellation: bool,
    hashing: Hashing, currencies: map<string, string>)
  {
    /** The tracker joining the two lookups starts at 1, and is reset only when k-anonymity is enforced. */
    function JoinTasks(): nat {
      if enforceKAnon then (if fetchSignals then 1 else 0) + 1 else 1
    }

    /** The bid types sent for scoring: app signals only by the reactor that serves apps. */
    function ScoredTypes(): Features {
      Features(features.protectedAudience, features.protectedAppSignals && hashing.forApp)
    }
  }

  datatype Status = OK | Cancelled | Internal | InvalidArgument | OtherError(code: nat)

  /** Where an asynchronous lookup is. Aborted: it finished the RPC itself. Lost: no callback will ever come. */
  datatype Task = Idle | Scheduled | InFlight | Ended | Aborted | Lost

  /** NotConverted: the key-value server answered, with content that does not convert. */
  datatype Signals = NeverSet | FetchFailed | NotConverted | Fetched(empty: bool)

  /** The request sent for scoring: the bids, and the status each is given. */
  datatype ScoreRequest = ScoreRequest(bids: BuyerBidsResponseMap, statuses: Statuses)

  /** The calls to buyers; a request still to be skipped only costs its task. */
  datatype Buyers = Buyers(
    toSolicit: seq<BidRequest>, toSkip: nat, awaited: seq<string>, tracker: T.Counts, allDone: nat,
    bids: BuyerBidsResponseMap)

  /** The two lookups and the tracker that joins them. */
  datatype Lookups = Lookups(
    join: T.Counts, kAnon: Task, hashSets: HashSets, answer: Option<set<string>>, statuses: Statuses,
    signalsTask: Task, signals: Signals)

  datatype State = State(
    clientCancelled: bool, buyers: Buyers, lookups: Lookups, scoreRequests: seq<ScoreRequest>, scoring: bool,
    finishes: seq<Status>, crashed: bool)

  function Initial(cfg: Config, run: Run): State {
    State(
      false,
      Buyers(run.solicited, run.skipped, [], T.Tracking(run.tracked), 0, map[]),
      Lookups(T.Tracking(cfg.JoinTasks()), Idle, map[], None, map[], Idle, NeverSet),
      [], false, [], false)
  }

  // ---------- what the environment decides ----------

  /** How a call made within a step turns out; lateCancel is a cancellation that arrives during the step. */
  datatype Choices = Choices(
    lateCancel: bool, filtered: BuyerBidsResponseMap, scoreAdsCallOk: bool, responseBuilt: bool, encrypted: bool)

  datatype SendOutcome = NoBuyerClient | SendFails | Sent

  datatype SignalsCall = NoProvider | RequestNotCreated | CallFails | Called

  datatype ScoreResult = Response | Failed(status: Status)

  datatype Event =
    | ClientCancels
    | NobodyToAsk(c: Choices)
    | SendNext(outcome: SendOutcome, c: Choices)
    | SkipNext(c: Choices)
    | BidsArrive(k: nat, response: Option<GetBidsResponse>, c: Choices)
    | QueryKAnon(sets: HashSets, lookupCallOk: bool, c: Choices)
    | KAnonAnswers(known: Option<set<string>>, c: Choices)
    | FetchSignals(call: SignalsCall)
    | SignalsArrive(answered: Signals, c: Choices)
    | ScoresArrive(scores: ScoreResult, c: Choices)

  // ---------- the reactor's methods ----------

  function FinishWithStatus(s: State, status: Status): State {
    s.(finishes := s.finishes + [status])
  }

  predicate IsCancelled(cfg: Config, s: State) {
    cfg.enableCancellation && s.clientCancelled
  }

  /** An INTERNAL error of the auction server is answered with chaff; other errors are passed on. */
  function OnScoreAdsDone(s: State, result: ScoreResult, adServerVisibleErrors: bool, c: Choices): State {
    if adServerVisibleErrors then FinishWithStatus(s, InvalidArgument)
    else if result.Failed? && result.status != Internal then FinishWithStatus(s, result.status)
    else if !c.responseBuilt then FinishWithStatus(s, Internal)
    else if !c.encrypted then FinishWithStatus(s, Internal)
    else FinishWithStatus(s, OK)
  }

  ghost predicate HasAdsToScore(scoredTypes: Features, bids: BuyerBidsResponseMap) {
    exists buyer :: buyer in bids && HasBids(scoredTypes, bids[buyer])
  }

  ghost function ScoreAds(cfg: Config, s: State, c: Choices): State {
    if cfg.enableCancellation && (s.clientCancelled || c.lateCancel) then FinishWithStatus(s, Cancelled)
    else if !HasAdsToScore(cfg.ScoredTypes(), s.buyers.bids) then OnScoreAdsDone(s, Response, false, c)
    else
      var called := s.(scoreRequests := s.scoreRequests + [ScoreRequest(s.buyers.bids, s.lookups.statuses)]);
      if c.scoreAdsCallOk then called.(scoring := true) else FinishWithStatus(called, Internal)
  }

  ghost function OnFetchScoringSignalsDone(cfg: Config, s: State, c: Choices): State {
    if !cfg.fetchSignals then ScoreAds(cfg, s, c)
    else if !s.lookups.signals.Fetched? then OnScoreAdsDone(s, Response, true, c)
    else if s.lookups.signals.empty then OnScoreAdsDone(s, Response, false, c)
    else ScoreAds(cfg, s, c)
  }

  /** Completes a task of the join, after the lookups have been updated. */
  ghost function JoinTaskCompleted(
    cfg: Config, s: State, lookups: Lookups, status: T.TaskStatus, c: Choices): State
  {
    var next := s.(lookups := lookups.(join := lookups.join.Completed(status)));
    if next.lookups.join.pending == 0 then OnFetchScoringSignalsDone(cfg, next, c) else next
  }

  ghost function OnQueryKAnonHashes(cfg: Config, s: State, sets: HashSets, lookupCallOk: bool, c: Choices): State {
    var queried := s.lookups.(hashSets := sets, kAnon := Ended);
    if sets == map[] then JoinTaskCompleted(cfg, s, queried, T.Skipped, c)
    else if forall key :: key in sets ==> sets[key] == {} then JoinTaskCompleted(cfg, s, queried, T.Skipped, c)
    else if lookupCallOk then s.(lookups := queried.(kAnon := InFlight))
    else JoinTaskCompleted(cfg, s, queried.(statuses := StatusesFor(cfg.enforceKAnon, sets, {})), T.Error, c)
  }

  ghost function OnKAnonAnswer(cfg: Config, s: State, known: Option<set<string>>, c: Choices): State {
    var answered := s.lookups.(kAnon := Ended);
    match known
    case None => JoinTaskCompleted(cfg, s, answered, T.Error, c)
    case Some(hashes) =>
      var statuses := StatusesFor(cfg.enforceKAnon, s.lookups.hashSets, hashes);
      JoinTaskCompleted(cfg, s, answered.(answer := known, statuses := statuses), T.Success, c)
  }

  function WithSignalsTask(s: State, task: Task): State {
    s.(lookups := s.lookups.(signalsTask := task))
  }

  /** With version 2 a request that cannot be created, or a call that fails, is only logged. */
  function FetchScoringSignals(cfg: Config, s: State, call: SignalsCall): State {
    if IsCancelled(cfg, s) then FinishWithStatus(WithSignalsTask(s, Aborted), Cancelled)
    else match call
      case NoProvider => FinishWithStatus(WithSignalsTask(s, Aborted), Internal)
      case Called => WithSignalsTask(s, InFlight)
      case RequestNotCreated => WithSignalsTask(s, Lost)
      case CallFails => WithSignalsTask(s, Lost)
  }

  /** With version 2 an answer that does not convert is read all the same, and the process aborts. */
  ghost function OnSignals(cfg: Config, s: State, result: Signals, c: Choices): State {
    var ended := s.lookups.(signalsTask := Ended);
    if !cfg.useKvV2 then
      if IsCancelled(cfg, s) then JoinTaskCompleted(cfg, s, ended, T.Cancelled, c)
      else JoinTaskCompleted(cfg, s, ended.(signals := result), T.Success, c)
    else if IsCancelled(cfg, s) then FinishWithStatus(WithSignalsTask(s, Aborted), Cancelled)
    else if result == NotConverted then s.(crashed := true)
    else if !result.Fetched? then OnScoreAdsDone(WithSignalsTask(s, Aborted), Response, true, c)
    else JoinTaskCompleted(cfg, s, ended.(signals := result), T.Success, c)
  }

  /** The lookups that start once the bids are filtered. */
  function Started(cfg: Config, lookups: Lookups): Lookups {
    lookups.(
      kAnon := if cfg.enforceKAnon then Scheduled else Idle,
      signalsTask := if cfg.fetchSignals then Scheduled else Idle)
  }

  ghost function OnAllBidsDone(cfg: Config, s: State, anySuccessfulBids: bool, c: Choices): State {
    var done := s.(buyers := s.buyers.(allDone := s.buyers.allDone + 1));
    if cfg.enableCancellation && (s.clientCancelled || c.lateCancel) then FinishWithStatus(done, Cancelled)
    else if s.buyers.bids == map[] then
      if !anySuccessfulBids then FinishWithStatus(done, Internal) else OnScoreAdsDone(done, Response, false, c)
    else
      var filtered := done.(buyers := done.buyers.(bids := c.filtered));
      if c.filtered == map[] then FinishWithStatus(filtered, InvalidArgument)
      else if cfg.fetchSignals || cfg.enforceKAnon then filtered.(lookups := Started(cfg, s.lookups))
      else ScoreAds(cfg, filtered, c)
  }

  /** Completes a buyer's task, after the buyers' part has been updated. */
  ghost function BidTaskCompleted(cfg: Config, s: State, buyers: Buyers, status: T.TaskStatus, c: Choices): State {
    var next := s.(buyers := buyers.(tracker := buyers.tracker.Completed(status)));
    if next.buyers.tracker.pending == 0
    then OnAllBidsDone(cfg, next, next.buyers.tracker.AnyTaskSuccessfullyCompleted(), c)
    else next
  }

  ghost function FetchBid(cfg: Config, s: State, outcome: SendOutcome, c: Choices): State
    requires s.buyers.toSolicit != []
  {
    var taken := s.buyers.(toSolicit := s.buyers.toSolicit[1..]);
    if IsCancelled(cfg, s) then BidTaskCompleted(cfg, s, taken, T.Cancelled, c)
    else match outcome
      case NoBuyerClient => BidTaskCompleted(cfg, s, taken, T.Skipped, c)
      case SendFails => BidTaskCompleted(cfg, s, taken, T.Error, c)
      case Sent => s.(buyers := taken.(awaited := taken.awaited + [s.buyers.toSolicit[0].buyer]))
  }

  /** What a buyer's answer adds to the shared map; a buyer asked twice keeps its first answer. */
  function BidsAfter(cfg: Config, s: State, buyer: string, response: Option<GetBidsResponse>): BuyerBidsResponseMap {
    if IsCancelled(cfg, s) || response == None || !HasBids(cfg.features, response.value) || buyer in s.buyers.bids
    then s.buyers.bids
    else s.buyers.bids[buyer := response.value]
  }

  function FetchBidStatus(cfg: Config, s: State, response: Option<GetBidsResponse>): T.TaskStatus {
    if IsCancelled(cfg, s) then T.Cancelled
    else match response
      case None => T.Error
      case Some(found) => if HasBids(cfg.features, found) then T.Success else T.EmptyResponse
  }

  /** The k-th of the awaited buyers has answered. */
  function Received(cfg: Config, s: State, k: nat, response: Option<GetBidsResponse>): Buyers
    requires k < |s.buyers.awaited|
  {
    s.buyers.(
      awaited := s.buyers.awaited[..k] + s.buyers.awaited[k + 1..],
      bids := BidsAfter(cfg, s, s.buyers.awaited[k], response))
  }

  ghost function OnFetchBidsDone(cfg: Config, s: State, k: nat, response: Option<GetBidsResponse>, c: Choices): State
    requires k < |s.buyers.awaited|
  {
    BidTaskCompleted(cfg, s, Received(cfg, s, k, response), FetchBidStatus(cfg, s, response), c)
  }

  // ---------- steps ----------

  /** The bids once the step's own answer is in. */
  function BidsKnown(cfg: Config, s: State, e: Event): BuyerBidsResponseMap {
    if e.BidsArrive? && e.k < |s.buyers.awaited| then BidsAfter(cfg, s, s.buyers.awaited[e.k], e.response)
    else s.buyers.bids
  }

  /** What the currency filter leaves of them is fixed only up to the order of a buyer's bids. */
  ghost predicate FiltersBids(cfg: Config, s: State, e: Event, c: Choices) {
    Filtered(cfg.features, cfg.currencies, BidsKnown(cfg, s, e), c.filtered)
  }

  /** Nothing happens any more in a process that has aborted. */
  ghost predicate Enabled(cfg: Config, s: State, e: Event) {
    e.ClientCancels? || (!s.crashed && CanHappen(cfg, s, e))
  }

  ghost predicate CanHappen(cfg: Config, s: State, e: Event) {
    match e
    case ClientCancels => true
    case NobodyToAsk(c) =>
      s.buyers.tracker.tracked == 0 && s.buyers.allDone == 0 && FiltersBids(cfg, s, e, c)
    case SendNext(_, c) => s.buyers.toSolicit != [] && FiltersBids(cfg, s, e, c)
    case SkipNext(c) => s.buyers.toSolicit == [] && s.buyers.toSkip > 0 && FiltersBids(cfg, s, e, c)
    case BidsArrive(k, _, c) => k < |s.buyers.awaited| && FiltersBids(cfg, s, e, c)
    case QueryKAnon(sets, _, _) => s.lookups.kAnon == Scheduled && AllHashed(cfg.hashing, s.buyers.bids, sets)
    case KAnonAnswers(_, _) => s.lookups.kAnon == InFlight
    case FetchSignals(call) => s.lookups.signalsTask == Scheduled && (cfg.useKvV2 || call in {NoProvider, Called})
    case SignalsArrive(answered, _) =>
      && s.lookups.signalsTask == InFlight && answered != NeverSet
      && (answered == NotConverted ==> cfg.useKvV2)
    case ScoresArrive(_, _) => s.scoring
  }

  ghost function OnScores(cfg: Config, s: State, result: ScoreResult, c: Choices): State {
    if IsCancelled(cfg, s) then FinishWithStatus(s.(scoring := false), Cancelled)
    else OnScoreAdsDone(s.(scoring := false), result, false, c)
  }

  ghost function After(cfg: Config, s: State, e: Event): State
    requires Enabled(cfg, s, e)
  {
    match e
    case ClientCancels => s.(clientCancelled := true)
    case NobodyToAsk(c) => OnAllBidsDone(cfg, s, true, c)
    case SendNext(outcome, c) => FetchBid(cfg, s, outcome, c)
    case SkipNext(c) => BidTaskCompleted(cfg, s, s.buyers.(toSkip := s.buyers.toSkip - 1), T.Skipped, c)
    case BidsArrive(k, response, c) => OnFetchBidsDone(cfg, s, k, response, c)
    case QueryKAnon(sets, lookupCallOk, c) => OnQueryKAnonHashes(cfg, s, sets, lookupCallOk, c)
    case KAnonAnswers(known, c) => OnKAnonAnswer(cfg, s, known, c)
    case FetchSignals(call) => FetchScoringSignals(cfg, s, call)
    case SignalsArrive(answered, c) => OnSignals(cfg, s, answered, c)
    case ScoresArrive(scores, c) => OnScores(cfg, s, scores, c)
  }

  ghost predicate Step(cfg: Config, s: State, e: Event, next: State) {
    Enabled(cfg, s, e) && next == After(cfg, s, e)
  }

  /** A run of the reactor: the states it goes through, and the events that lead from each to the next. */
  datatype Trace = Trace(states: seq<State>, events: seq<Event>)

  ghost predicate StepAt(cfg: Config, t: Trace, k: nat)
    requires k < |t.events| && |t.events| < |t.states|
  {
    Step(cfg, t.states[k], t.events[k], t.states[k + 1])
  }

  ghost predicate IsTrace(cfg: Config, run: Run, t: Trace) {
    && |t.states| == |t.events| + 1
    && t.states[0] == Initial(cfg, run)
    && forall k: nat :: k < |t.events| ==> StepAt(cfg, t, k)
  }

  /** Some order of events leads to s. */
  ghost predicate Reaches(cfg: Config, run: Run, t: Trace, s: State) {
    IsTrace(cfg, run, t) && s == t.states[|t.events|]
  }
}
