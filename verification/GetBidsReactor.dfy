/** GetBidsUnaryReactor as a step system: Protected Audience and Protected App Signals bidding run side by side. */
module GetBidsReactor {
  import opened Sequences
  import opened BidTypes
  import T = TaskTracker

  datatype FetchMode = NotFetched | Optional | Required

  datatype Config = Config(
    protectedAudience: bool, hasInterestGroups: bool,
    protectedAppSignals: bool, hasAppSignalsInput: bool, hasAppSignals: bool,
    fetchMode: FetchMode, useKvV2: bool, hybrid: bool, enableCancellation: bool)
  {
    predicate CountsAudience() {
      protectedAudience && hasInterestGroups
    }

    /** Counted for its buyer input alone; the call also needs the signals in it. */
    predicate CountsAppSignals() {
      protectedAppSignals && hasAppSignalsInput
    }

    function GetNumberOfMaximumBiddingCalls(): nat {
      (if CountsAudience() then 1 else 0) + (if CountsAppSignals() then 1 else 0)
    }
  }

  datatype Status = OK | Cancelled | InvalidArgument | Internal | Rejected | BidErrors(errors: seq<string>)

  /** One side's progress. Aborted: it finished the RPC itself. Lost: no callback will ever come. */
  datatype Stage =
    | ToStart | AwaitV1Signals | AwaitV2Signals | AwaitBids | Completed(status: T.TaskStatus) | Aborted | Lost

  datatype Phase = NotExecuted | Refused | ChaffWaiting | ChaffSent | Running

  /** What completing tasks writes. */
  datatype Results = Results(tracker: T.Counts, errors: seq<string>, response: GetBidsResponse)

  datatype State = State(
    clientCancelled: bool, phase: Phase, audience: Stage, appSignals: Stage, results: Results, finishes: seq<Status>)

  function Initial(): State {
    State(false, NotExecuted, ToStart, ToStart, Results(T.Tracking(0), [], GetBidsResponse([], [])), [])
  }

  // ---------- what the environment decides ----------

  datatype Entry = Refuse(status: Status) | Chaff(encrypted: bool) | BadPriorityVector | Proceed

  /** The calls for trusted bidding signals. */
  datatype SignalsEnv = SignalsEnv(hasV1Provider: bool, hasV2Client: bool, v2RequestCreated: bool, v2CallOk: bool)

  datatype Parsed = ParseOk | ParseInvalidArgument | ParseFailed(error: string)

  /** Parsing the signals, what is left of the interest groups, and the bidding call. */
  datatype BiddingEnv = BiddingEnv(parsed: Parsed, anyInterestGroupLeft: bool, biddingCallOk: bool)

  datatype V1Answer = V1Failed(error: string) | V1Signals(isHybridV1Return: bool)

  datatype Answer<Bid> = AnswerFailed(error: string) | AnswerBids(bids: seq<Bid>)

  datatype Event =
    | ClientCancels
    | Execute(entry: Entry)
    | ChaffDelayOver
    | StartAudience(signalsEnv: SignalsEnv, biddingEnv: BiddingEnv, encrypted: bool)
    | StartAppSignals(appSignalsCallOk: bool, encrypted: bool)
    | V1SignalsArrive(v1: V1Answer, signalsEnv: SignalsEnv, biddingEnv: BiddingEnv, encrypted: bool)
    | V2SignalsArrive(v2Failure: Option<string>, biddingEnv: BiddingEnv, encrypted: bool)
    | AudienceBidsArrive(audienceAnswer: Answer<AdWithBid>, encrypted: bool)
    | AppSignalsBidsArrive(appSignalsAnswer: Answer<ProtectedAppSignalsAdWithBid>, encrypted: bool)

  // ---------- the reactor's methods ----------

  predicate IsCancelled(cfg: Config, s: State) {
    cfg.enableCancellation && s.clientCancelled
  }

  function FinishWithStatus(s: State, status: Status): State {
    s.(finishes := s.finishes + [status])
  }

  function OnAllBidsDone(cfg: Config, s: State, anySuccessfulBids: bool, encrypted: bool): State {
    if IsCancelled(cfg, s) then FinishWithStatus(s, Cancelled)
    else if !anySuccessfulBids then FinishWithStatus(s, BidErrors(s.results.errors))
    else if !encrypted then FinishWithStatus(s, Internal)
    else FinishWithStatus(s, OK)
  }

  function TaskCompleted(cfg: Config, s: State, status: T.TaskStatus, encrypted: bool): State {
    var next := s.(results := s.results.(tracker := s.results.tracker.Completed(status)));
    if next.results.tracker.pending == 0
    then OnAllBidsDone(cfg, next, next.results.tracker.AnyTaskSuccessfullyCompleted(), encrypted)
    else next
  }

  function AudienceCompleted(cfg: Config, s: State, status: T.TaskStatus, encrypted: bool): State {
    TaskCompleted(cfg, s.(audience := Completed(status)), status, encrypted)
  }

  function AppSignalsCompleted(cfg: Config, s: State, status: T.TaskStatus, encrypted: bool): State {
    TaskCompleted(cfg, s.(appSignals := Completed(status)), status, encrypted)
  }

  function WithError(s: State, error: string): State {
    s.(results := s.results.(errors := s.results.errors + [error]))
  }

  function PrepareAndGenerateProtectedAudienceBid(cfg: Config, s: State, env: BiddingEnv, encrypted: bool): State {
    if env.parsed == ParseInvalidArgument && cfg.fetchMode == Required then
      AudienceCompleted(cfg, s, T.EmptyResponse, encrypted)
    else if env.parsed.ParseFailed? && cfg.fetchMode == Required then
      AudienceCompleted(cfg, WithError(s, env.parsed.error), T.Error, encrypted)
    else if !env.anyInterestGroupLeft then AudienceCompleted(cfg, s, T.EmptyResponse, encrypted)
    else if !env.biddingCallOk then AudienceCompleted(cfg, WithError(s, "GenerateBids"), T.Error, encrypted)
    else s.(audience := AwaitBids)
  }

  function MayGetProtectedAudienceBidsV1(s: State, env: SignalsEnv): State {
    if !env.hasV1Provider then FinishWithStatus(s.(audience := Aborted), Internal)
    else s.(audience := AwaitV1Signals)
  }

  /** A request that cannot be created is only logged. */
  function MayGetProtectedAudienceBidsV2(cfg: Config, s: State, env: SignalsEnv, encrypted: bool): State {
    if !env.hasV2Client then FinishWithStatus(s.(audience := Aborted), Internal)
    else if !env.v2RequestCreated then s.(audience := Lost)
    else if !env.v2CallOk then AudienceCompleted(cfg, WithError(s, "KV lookup"), T.Error, encrypted)
    else s.(audience := AwaitV2Signals)
  }

  function MayGetProtectedAudienceBids(
    cfg: Config, s: State, signalsEnv: SignalsEnv, biddingEnv: BiddingEnv, encrypted: bool): State
  {
    if cfg.fetchMode == NotFetched then PrepareAndGenerateProtectedAudienceBid(cfg, s, biddingEnv, encrypted)
    else if cfg.useKvV2 then MayGetProtectedAudienceBidsV2(cfg, s, signalsEnv, encrypted)
    else MayGetProtectedAudienceBidsV1(s, signalsEnv)
  }

  function OnV1Signals(
    cfg: Config, s: State, v1: V1Answer, signalsEnv: SignalsEnv, biddingEnv: BiddingEnv, encrypted: bool): State
  {
    if IsCancelled(cfg, s) then AudienceCompleted(cfg, s, T.Cancelled, encrypted)
    else match v1
      case V1Failed(error) => AudienceCompleted(cfg, WithError(s, error), T.Error, encrypted)
      case V1Signals(isHybridV1Return) =>
        if cfg.hybrid && !isHybridV1Return then MayGetProtectedAudienceBidsV2(cfg, s, signalsEnv, encrypted)
        else PrepareAndGenerateProtectedAudienceBid(cfg, s, biddingEnv, encrypted)
  }

  function OnV2Signals(cfg: Config, s: State, failure: Option<string>, env: BiddingEnv, encrypted: bool): State {
    if IsCancelled(cfg, s) then AudienceCompleted(cfg, s, T.Cancelled, encrypted)
    else match failure
      case Some(error) => AudienceCompleted(cfg, WithError(s, error), T.Error, encrypted)
      case None => PrepareAndGenerateProtectedAudienceBid(cfg, s, env, encrypted)
  }

  /** HandleSingleBidCompletion: only a successful answer asks whether the client has cancelled. */
  function StatusOf<Bid>(cfg: Config, s: State, answer: Answer<Bid>): T.TaskStatus {
    match answer
    case AnswerFailed(_) => T.Error
    case AnswerBids(bids) =>
      if bids == [] then T.EmptyResponse else if IsCancelled(cfg, s) then T.Cancelled else T.Success
  }

  /** What an answer writes before its task completes. */
  function WithAudienceAnswer(cfg: Config, s: State, answer: Answer<AdWithBid>): State {
    match StatusOf(cfg, s, answer)
    case Error => WithError(s, answer.error)
    case Success => s.(results := s.results.(response := s.results.response.(bids := answer.bids)))
    case _ => s
  }

  function WithAppSignalsAnswer(cfg: Config, s: State, answer: Answer<ProtectedAppSignalsAdWithBid>): State {
    match StatusOf(cfg, s, answer)
    case Error => WithError(s, answer.error)
    case Success =>
      s.(results := s.results.(response := s.results.response.(protectedAppSignalsBids := answer.bids)))
    case _ => s
  }

  function OnAudienceBids(cfg: Config, s: State, answer: Answer<AdWithBid>, encrypted: bool): State {
    AudienceCompleted(cfg, WithAudienceAnswer(cfg, s, answer), StatusOf(cfg, s, answer), encrypted)
  }

  function OnAppSignalsBids(
    cfg: Config, s: State, answer: Answer<ProtectedAppSignalsAdWithBid>, encrypted: bool): State
  {
    AppSignalsCompleted(cfg, WithAppSignalsAnswer(cfg, s, answer), StatusOf(cfg, s, answer), encrypted)
  }

  function MayGetProtectedSignalsBids(cfg: Config, s: State, callOk: bool, encrypted: bool): State {
    if !cfg.hasAppSignals then s.(appSignals := Lost)
    else if !callOk then
      AppSignalsCompleted(cfg, WithError(s, "GenerateProtectedAppSignalsBids"), T.Error, encrypted)
    else s.(appSignals := AwaitBids)
  }

  function OnExecute(cfg: Config, s: State, entry: Entry): State {
    if IsCancelled(cfg, s) then FinishWithStatus(s.(phase := Refused), Cancelled)
    else match entry
      case Refuse(status) => FinishWithStatus(s.(phase := Refused), status)
      case Chaff(encrypted) =>
        if encrypted then s.(phase := ChaffWaiting) else FinishWithStatus(s.(phase := Refused), Internal)
      case BadPriorityVector => FinishWithStatus(s.(phase := Refused), InvalidArgument)
      case Proceed =>
        var calls := cfg.GetNumberOfMaximumBiddingCalls();
        if calls == 0 then FinishWithStatus(s.(phase := Refused), InvalidArgument)
        else s.(phase := Running, results := s.results.(tracker := T.Tracking(calls)))
  }

  // ---------- steps ----------

  predicate AudienceStarted(cfg: Config, s: State) {
    s.phase == Running && (cfg.CountsAudience() ==> s.audience != ToStart)
  }

  /** Audience bidding is started first; its callbacks may come before app signals bidding is started. */
  predicate Enabled(cfg: Config, s: State, e: Event) {
    match e
    case ClientCancels => true
    case Execute(_) => s.phase == NotExecuted
    case ChaffDelayOver => s.phase == ChaffWaiting
    case StartAudience(_, _, _) => s.phase == Running && cfg.CountsAudience() && s.audience == ToStart
    case StartAppSignals(_, _) => AudienceStarted(cfg, s) && cfg.CountsAppSignals() && s.appSignals == ToStart
    case V1SignalsArrive(_, _, _, _) => s.audience == AwaitV1Signals
    case V2SignalsArrive(_, _, _) => s.audience == AwaitV2Signals
    case AudienceBidsArrive(_, _) => s.audience == AwaitBids
    case AppSignalsBidsArrive(_, _) => s.appSignals == AwaitBids
  }

  function After(cfg: Config, s: State, e: Event): State
    requires Enabled(cfg, s, e)
  {
    match e
    case ClientCancels => s.(clientCancelled := true)
    case Execute(entry) => OnExecute(cfg, s, entry)
    case ChaffDelayOver => FinishWithStatus(s.(phase := ChaffSent), OK)
    case StartAudience(signalsEnv, biddingEnv, encrypted) =>
      MayGetProtectedAudienceBids(cfg, s, signalsEnv, biddingEnv, encrypted)
    case StartAppSignals(callOk, encrypted) => MayGetProtectedSignalsBids(cfg, s, callOk, encrypted)
    case V1SignalsArrive(v1, signalsEnv, biddingEnv, encrypted) =>
      OnV1Signals(cfg, s, v1, signalsEnv, biddingEnv, encrypted)
    case V2SignalsArrive(failure, biddingEnv, encrypted) => OnV2Signals(cfg, s, failure, biddingEnv, encrypted)
    case AudienceBidsArrive(answer, encrypted) => OnAudienceBids(cfg, s, answer, encrypted)
    case AppSignalsBidsArrive(answer, encrypted) => OnAppSignalsBids(cfg, s, answer, encrypted)
  }

  predicate Step(cfg: Config, s: State, e: Event, next: State) {
    Enabled(cfg, s, e) && next == After(cfg, s, e)
  }

  /** A run of the reactor: the states it goes through, and the events that lead from each to the next. */
  datatype Trace = Trace(states: seq<State>, events: seq<Event>)

  ghost predicate StepAt(cfg: Config, t: Trace, k: nat)
    requires k < |t.events| && |t.events| < |t.states|
  {
    Step(cfg, t.states[k], t.events[k], t.states[k + 1])
  }

  ghost predicate IsTrace(cfg: Config, t: Trace) {
    && |t.states| == |t.events| + 1
    && t.states[0] == Initial()
    && forall k: nat :: k < |t.events| ==> StepAt(cfg, t, k)
  }

  /** Some order of events leads to s. */
  ghost predicate Reaches(cfg: Config, t: Trace, s: State) {
    IsTrace(cfg, t) && s == t.states[|t.events|]
  }

  // ---------- the protocol invariant ----------

  function One(b: bool): nat {
    if b then 1 else 0
  }

  /** Each counter is the number of sides that ended with its status. */
  ghost predicate Counted(cfg: Config, audience: Stage, appSignals: Stage, t: T.Counts) {
    && t.tracked == cfg.GetNumberOfMaximumBiddingCalls()
    && t.pending == One(cfg.CountsAudience() && !audience.Completed?) +
                    One(cfg.CountsAppSignals() && !appSignals.Completed?)
    && t.successful == One(audience == Completed(T.Success)) + One(appSignals == Completed(T.Success))
    && t.empty == One(audience == Completed(T.EmptyResponse)) + One(appSignals == Completed(T.EmptyResponse))
    && t.skipped == One(audience == Completed(T.Skipped)) + One(appSignals == Completed(T.Skipped))
    && t.error == One(audience == Completed(T.Error)) + One(appSignals == Completed(T.Error))
  }

  /** No side skips its task, and none is cancelled unless cancellation is enabled. */
  predicate Possible(cfg: Config, stage: Stage) {
    stage.Completed? ==> stage.status != T.Skipped && (stage.status == T.Cancelled ==> cfg.enableCancellation)
  }

  ghost predicate Stages(cfg: Config, s: State) {
    && (!cfg.CountsAudience() ==> s.audience == ToStart)
    && (!cfg.CountsAppSignals() ==> s.appSignals == ToStart)
    && s.appSignals !in {AwaitV1Signals, AwaitV2Signals, Aborted}
    && (s.appSignals == Lost ==> !cfg.hasAppSignals) && (s.appSignals in {AwaitBids} ==> cfg.hasAppSignals)
    && (s.appSignals.Completed? ==> cfg.hasAppSignals)
    && (s.appSignals != ToStart ==> AudienceStarted(cfg, s))
    && Possible(cfg, s.audience) && Possible(cfg, s.appSignals)
  }

  /** How the RPC may be finished once both sides have completed. */
  ghost predicate FitsVerdict(cfg: Config, r: Results, status: Status) {
    || (status == Cancelled && cfg.enableCancellation)
    || (if r.tracker.AnyTaskSuccessfullyCompleted() then status in {OK, Internal} else status == BidErrors(r.errors))
  }

  ghost predicate Inv(cfg: Config, s: State) {
    if s.phase == Running then
      && cfg.GetNumberOfMaximumBiddingCalls() > 0
      && Stages(cfg, s)
      && Counted(cfg, s.audience, s.appSignals, s.results.tracker)
      && |s.results.errors| == s.results.tracker.error
      && |s.finishes| == One(s.audience == Aborted) + One(s.results.tracker.pending == 0)
      && (s.results.tracker.pending == 0 ==> FitsVerdict(cfg, s.results, s.finishes[0]))
    else
      && s.audience == ToStart && s.appSignals == ToStart && s.results == Initial().results
      && |s.finishes| == One(s.phase in {Refused, ChaffSent})
  }

  /** The side that has just ended is still counted as pending. */
  lemma CompletedKeepsInv(cfg: Config, s: State, status: T.TaskStatus, encrypted: bool)
    requires s.phase == Running && cfg.GetNumberOfMaximumBiddingCalls() > 0 && Stages(cfg, s)
    requires Counted(cfg, s.audience, s.appSignals, s.results.tracker.Completed(status))
    requires |s.results.errors| == s.results.tracker.error + One(status == T.Error)
    requires |s.finishes| == One(s.audience == Aborted)
    ensures Inv(cfg, TaskCompleted(cfg, s, status, encrypted))
  {
  }

  lemma AudienceKeepsInv(cfg: Config, s: State, next: State, status: T.TaskStatus, encrypted: bool)
    requires s.phase == Running && Inv(cfg, s)
    requires cfg.CountsAudience() && !s.audience.Completed? && s.audience != Aborted && Possible(cfg, Completed(status))
    requires next == s.(results := s.results.(response := next.results.response, errors := next.results.errors))
    requires |next.results.errors| == |s.results.errors| + One(status == T.Error)
    ensures Inv(cfg, AudienceCompleted(cfg, next, status, encrypted))
  {
    CompletedKeepsInv(cfg, next.(audience := Completed(status)), status, encrypted);
  }

  lemma AppSignalsKeepsInv(cfg: Config, s: State, next: State, status: T.TaskStatus, encrypted: bool)
    requires s.phase == Running && Inv(cfg, s) && AudienceStarted(cfg, s) && cfg.hasAppSignals
    requires cfg.CountsAppSignals() && !s.appSignals.Completed? && Possible(cfg, Completed(status))
    requires next == s.(results := s.results.(response := next.results.response, errors := next.results.errors))
    requires |next.results.errors| == |s.results.errors| + One(status == T.Error)
    ensures Inv(cfg, AppSignalsCompleted(cfg, next, status, encrypted))
  {
    CompletedKeepsInv(cfg, next.(appSignals := Completed(status)), status, encrypted);
  }

  lemma PrepareKeepsInv(cfg: Config, s: State, env: BiddingEnv, encrypted: bool)
    requires s.phase == Running && Inv(cfg, s)
    requires cfg.CountsAudience() && !s.audience.Completed? && s.audience != Aborted
    ensures Inv(cfg, PrepareAndGenerateProtectedAudienceBid(cfg, s, env, encrypted))
  {
    if env.parsed == ParseInvalidArgument && cfg.fetchMode == Required {
      AudienceKeepsInv(cfg, s, s, T.EmptyResponse, encrypted);
    } else if env.parsed.ParseFailed? && cfg.fetchMode == Required {
      AudienceKeepsInv(cfg, s, WithError(s, env.parsed.error), T.Error, encrypted);
    } else if !env.anyInterestGroupLeft {
      AudienceKeepsInv(cfg, s, s, T.EmptyResponse, encrypted);
    } else if !env.biddingCallOk {
      AudienceKeepsInv(cfg, s, WithError(s, "GenerateBids"), T.Error, encrypted);
    }
  }

  lemma V2KeepsInv(cfg: Config, s: State, env: SignalsEnv, encrypted: bool)
    requires s.phase == Running && Inv(cfg, s)
    requires cfg.CountsAudience() && !s.audience.Completed? && s.audience != Aborted
    ensures Inv(cfg, MayGetProtectedAudienceBidsV2(cfg, s, env, encrypted))
  {
    AudienceKeepsInv(cfg, s, WithError(s, "KV lookup"), T.Error, encrypted);
  }

  lemma SignalsKeepInv(cfg: Config, s: State, e: Event)
    requires Inv(cfg, s) && Enabled(cfg, s, e) && (e.V1SignalsArrive? || e.V2SignalsArrive?)
    ensures Inv(cfg, After(cfg, s, e))
  {
    if IsCancelled(cfg, s) {
      AudienceKeepsInv(cfg, s, s, T.Cancelled, e.encrypted);
    } else if e.V1SignalsArrive? && e.v1.V1Failed? {
      AudienceKeepsInv(cfg, s, WithError(s, e.v1.error), T.Error, e.encrypted);
    } else if e.V1SignalsArrive? && cfg.hybrid && !e.v1.isHybridV1Return {
      V2KeepsInv(cfg, s, e.signalsEnv, e.encrypted);
    } else if e.V2SignalsArrive? && e.v2Failure.Some? {
      AudienceKeepsInv(cfg, s, WithError(s, e.v2Failure.value), T.Error, e.encrypted);
    } else {
      PrepareKeepsInv(cfg, s, e.biddingEnv, e.encrypted);
    }
  }

  lemma AudienceBidsKeepInv(cfg: Config, s: State, answer: Answer<AdWithBid>, encrypted: bool)
    requires Inv(cfg, s) && s.audience == AwaitBids
    ensures Inv(cfg, OnAudienceBids(cfg, s, answer, encrypted))
  {
    var status := StatusOf(cfg, s, answer);
    var next := WithAudienceAnswer(cfg, s, answer);
    AudienceKeepsInv(cfg, s, next, status, encrypted);
  }

  lemma AppSignalsBidsKeepInv(
    cfg: Config, s: State, answer: Answer<ProtectedAppSignalsAdWithBid>, encrypted: bool)
    requires Inv(cfg, s) && s.appSignals == AwaitBids
    ensures Inv(cfg, OnAppSignalsBids(cfg, s, answer, encrypted))
  {
    var status := StatusOf(cfg, s, answer);
    var next := WithAppSignalsAnswer(cfg, s, answer);
    AppSignalsKeepsInv(cfg, s, next, status, encrypted);
  }

  lemma StartAudienceKeepsInv(
    cfg: Config, s: State, signalsEnv: SignalsEnv, biddingEnv: BiddingEnv, encrypted: bool)
    requires Inv(cfg, s) && s.phase == Running && cfg.CountsAudience() && s.audience == ToStart
    ensures Inv(cfg, MayGetProtectedAudienceBids(cfg, s, signalsEnv, biddingEnv, encrypted))
  {
    if cfg.fetchMode == NotFetched {
      PrepareKeepsInv(cfg, s, biddingEnv, encrypted);
    } else if cfg.useKvV2 {
      V2KeepsInv(cfg, s, signalsEnv, encrypted);
    }
  }

  lemma StartAppSignalsKeepsInv(cfg: Config, s: State, callOk: bool, encrypted: bool)
    requires Inv(cfg, s) && AudienceStarted(cfg, s) && cfg.CountsAppSignals() && s.appSignals == ToStart
    ensures Inv(cfg, MayGetProtectedSignalsBids(cfg, s, callOk, encrypted))
  {
    if cfg.hasAppSignals {
      AppSignalsKeepsInv(cfg, s, WithError(s, "GenerateProtectedAppSignalsBids"), T.Error, encrypted);
    }
  }

  lemma ExecuteKeepsInv(cfg: Config, s: State, e: Event)
    requires Inv(cfg, s) && Enabled(cfg, s, e) && (e.Execute? || e.ClientCancels? || e.ChaffDelayOver?)
    ensures Inv(cfg, After(cfg, s, e))
  {
  }

  lemma StepKeepsInv(cfg: Config, s: State, e: Event)
    requires Inv(cfg, s) && Enabled(cfg, s, e)
    ensures Inv(cfg, After(cfg, s, e))
  {
    if e.StartAudience? {
      StartAudienceKeepsInv(cfg, s, e.signalsEnv, e.biddingEnv, e.encrypted);
    } else if e.StartAppSignals? {
      StartAppSignalsKeepsInv(cfg, s, e.appSignalsCallOk, e.encrypted);
    } else if e.V1SignalsArrive? || e.V2SignalsArrive? {
      SignalsKeepInv(cfg, s, e);
    } else if e.AudienceBidsArrive? {
      AudienceBidsKeepInv(cfg, s, e.audienceAnswer, e.encrypted);
    } else if e.AppSignalsBidsArrive? {
      AppSignalsBidsKeepInv(cfg, s, e.appSignalsAnswer, e.encrypted);
    } else {
      ExecuteKeepsInv(cfg, s, e);
    }
  }

  lemma InitialInv(cfg: Config)
    ensures Inv(cfg, Initial())
  {
  }

  lemma {:induction false} ReachedKeepsInv(cfg: Config, t: Trace, k: nat)
    requires IsTrace(cfg, t) && k <= |t.events|
    ensures Inv(cfg, t.states[k])
  {
    hide Inv, Enabled, After;
    if k == 0 {
      InitialInv(cfg);
    } else {
      ReachedKeepsInv(cfg, t, k - 1);
      assert StepAt(cfg, t, k - 1);
      StepKeepsInv(cfg, t.states[k - 1], t.events[k - 1]);
    }
  }

  // ---------- what holds in every run ----------

  /** At most one Finish; each counted side completes its task at most once. */
  lemma AtMostOnce(cfg: Config, t: Trace, s: State)
    requires Reaches(cfg, t, s)
    ensures |s.finishes| <= 1
    ensures 0 <= s.results.tracker.pending <= s.results.tracker.tracked
    ensures s.results.tracker.tracked ==
              if s.phase != Running then 0
              else One(cfg.protectedAudience && cfg.hasInterestGroups) +
                   One(cfg.protectedAppSignals && cfg.hasAppSignalsInput)
  {
    ReachedKeepsInv(cfg, t, |t.events|);
  }

  /** No server event is left that could happen. */
  ghost predicate Settled(cfg: Config, s: State) {
    forall e :: Enabled(cfg, s, e) ==> e.ClientCancels?
  }

  lemma SettledMeans(cfg: Config, s: State)
    requires Settled(cfg, s)
    ensures s.phase !in {NotExecuted, ChaffWaiting}
    ensures s.audience !in {AwaitV1Signals, AwaitV2Signals, AwaitBids} && s.appSignals != AwaitBids
    ensures s.phase == Running ==>
              (cfg.CountsAudience() ==> s.audience != ToStart) && (cfg.CountsAppSignals() ==> s.appSignals != ToStart)
  {
    var signalsEnv, biddingEnv := SignalsEnv(true, true, true, true), BiddingEnv(ParseOk, true, true);
    assert !Enabled(cfg, s, Execute(Proceed)) && !Enabled(cfg, s, ChaffDelayOver);
    assert !Enabled(cfg, s, StartAudience(signalsEnv, biddingEnv, true));
    assert !Enabled(cfg, s, StartAppSignals(true, true));
    assert !Enabled(cfg, s, V1SignalsArrive(V1Signals(true), signalsEnv, biddingEnv, true));
    assert !Enabled(cfg, s, V2SignalsArrive(None, biddingEnv, true));
    assert !Enabled(cfg, s, AudienceBidsArrive(AnswerBids([]), true));
    assert !Enabled(cfg, s, AppSignalsBidsArrive(AnswerBids([]), true));
  }

  // ---------- when the audience side gets lost ----------

  /** The reactor starts to bid. */
  predicate StartsBidding(cfg: Config, s: State, e: Event) {
    && e.Execute? && e.entry == Proceed && !IsCancelled(cfg, s)
    && (|| (cfg.protectedAudience && cfg.hasInterestGroups)
        || (cfg.protectedAppSignals && cfg.hasAppSignalsInput))
  }

  /** The step calls version 2 of the key-value client: at the start, or after a hybrid call of version 1. */
  predicate CallsV2(cfg: Config, s: State, e: Event) {
    || (e.StartAudience? && cfg.fetchMode != NotFetched && cfg.useKvV2)
    || (e.V1SignalsArrive? && !IsCancelled(cfg, s) && e.v1 == V1Signals(false) && cfg.hybrid)
  }

  /** The request for version 2 cannot be created: the code only logs it and completes no task. */
  predicate LosesAudience(cfg: Config, s: State, e: Event) {
    CallsV2(cfg, s, e) && e.signalsEnv.hasV2Client && !e.signalsEnv.v2RequestCreated
  }

  /** There is no client for the version to call: the code finishes the RPC at once. */
  predicate AbortsAudience(cfg: Config, s: State, e: Event) {
    || (CallsV2(cfg, s, e) && !e.signalsEnv.hasV2Client)
    || (e.StartAudience? && cfg.fetchMode != NotFetched && !cfg.useKvV2 && !e.signalsEnv.hasV1Provider)
  }

  ghost predicate StartedBidding(cfg: Config, t: Trace, k: nat)
    requires k <= |t.events| < |t.states|
  {
    exists j :: 0 <= j < k && StartsBidding(cfg, t.states[j], t.events[j])
  }

  ghost predicate LostAudience(cfg: Config, t: Trace, k: nat)
    requires k <= |t.events| < |t.states|
  {
    exists j :: 0 <= j < k && LosesAudience(cfg, t.states[j], t.events[j])
  }

  ghost predicate AbortedAudience(cfg: Config, t: Trace, k: nat)
    requires k <= |t.events| < |t.states|
  {
    exists j :: 0 <= j < k && AbortsAudience(cfg, t.states[j], t.events[j])
  }

  /** What a step does to the phase and to the audience side's two dead ends. */
  ghost predicate MarksStep(cfg: Config, s: State, e: Event, next: State) {
    && (next.phase == Running <==> s.phase == Running || StartsBidding(cfg, s, e))
    && (next.audience == Lost <==> s.audience == Lost || LosesAudience(cfg, s, e))
    && (next.audience == Aborted <==> s.audience == Aborted || AbortsAudience(cfg, s, e))
    && (next.audience == AwaitV1Signals ==>
          s.audience == AwaitV1Signals || (cfg.fetchMode != NotFetched && !cfg.useKvV2))
  }

  lemma CompletedMarks(cfg: Config, s: State, status: T.TaskStatus, encrypted: bool)
    ensures var next := TaskCompleted(cfg, s, status, encrypted);
      && next.phase == s.phase && next.audience == s.audience && next.appSignals == s.appSignals
      && next.clientCancelled == s.clientCancelled
  {
  }

  lemma AudienceMarks(cfg: Config, s: State, status: T.TaskStatus, encrypted: bool)
    ensures var next := AudienceCompleted(cfg, s, status, encrypted);
      next.phase == s.phase && next.audience == Completed(status)
  {
    CompletedMarks(cfg, s.(audience := Completed(status)), status, encrypted);
  }

  /** A side that starts or goes on to ask the bidding service meets no dead end. */
  lemma PrepareMarks(cfg: Config, s: State, env: BiddingEnv, encrypted: bool)
    ensures var next := PrepareAndGenerateProtectedAudienceBid(cfg, s, env, encrypted);
      next.phase == s.phase && next.audience !in {Lost, Aborted, AwaitV1Signals}
  {
    if env.parsed == ParseInvalidArgument && cfg.fetchMode == Required {
      AudienceMarks(cfg, s, T.EmptyResponse, encrypted);
    } else if env.parsed.ParseFailed? && cfg.fetchMode == Required {
      AudienceMarks(cfg, WithError(s, env.parsed.error), T.Error, encrypted);
    } else if !env.anyInterestGroupLeft {
      AudienceMarks(cfg, s, T.EmptyResponse, encrypted);
    } else if !env.biddingCallOk {
      AudienceMarks(cfg, WithError(s, "GenerateBids"), T.Error, encrypted);
    }
  }

  lemma V2Marks(cfg: Config, s: State, env: SignalsEnv, encrypted: bool)
    ensures var next := MayGetProtectedAudienceBidsV2(cfg, s, env, encrypted);
      && next.phase == s.phase && next.audience != AwaitV1Signals
      && (next.audience == Lost <==> env.hasV2Client && !env.v2RequestCreated)
      && (next.audience == Aborted <==> !env.hasV2Client)
  {
    AudienceMarks(cfg, WithError(s, "KV lookup"), T.Error, encrypted);
  }

  lemma StartAudienceMarks(cfg: Config, s: State, e: Event)
    requires Enabled(cfg, s, e) && e.StartAudience?
    ensures MarksStep(cfg, s, e, After(cfg, s, e))
  {
    if cfg.fetchMode == NotFetched {
      PrepareMarks(cfg, s, e.biddingEnv, e.encrypted);
    } else if cfg.useKvV2 {
      V2Marks(cfg, s, e.signalsEnv, e.encrypted);
    }
  }

  lemma V1Marks(cfg: Config, s: State, e: Event)
    requires Enabled(cfg, s, e) && e.V1SignalsArrive?
    ensures MarksStep(cfg, s, e, After(cfg, s, e))
  {
    if CallsV2(cfg, s, e) {
      V2Marks(cfg, s, e.signalsEnv, e.encrypted);
    } else if !IsCancelled(cfg, s) && e.v1.V1Signals? {
      PrepareMarks(cfg, s, e.biddingEnv, e.encrypted);
    }
  }

  lemma V2AnswerMarks(cfg: Config, s: State, e: Event)
    requires Enabled(cfg, s, e) && e.V2SignalsArrive?
    ensures MarksStep(cfg, s, e, After(cfg, s, e))
  {
    if !IsCancelled(cfg, s) && e.v2Failure == None {
      PrepareMarks(cfg, s, e.biddingEnv, e.encrypted);
    }
  }

  lemma AudienceBidsMark(cfg: Config, s: State, e: Event)
    requires Enabled(cfg, s, e) && e.AudienceBidsArrive?
    ensures MarksStep(cfg, s, e, After(cfg, s, e))
  {
    var answered := WithAudienceAnswer(cfg, s, e.audienceAnswer);
    AudienceMarks(cfg, answered, StatusOf(cfg, s, e.audienceAnswer), e.encrypted);
  }

  lemma AppSignalsMark(cfg: Config, s: State, e: Event)
    requires Enabled(cfg, s, e) && (e.AppSignalsBidsArrive? || e.StartAppSignals?)
    ensures MarksStep(cfg, s, e, After(cfg, s, e))
  {
    if e.AppSignalsBidsArrive? {
      var status := StatusOf(cfg, s, e.appSignalsAnswer);
      var answered := WithAppSignalsAnswer(cfg, s, e.appSignalsAnswer);
      CompletedMarks(cfg, answered.(appSignals := Completed(status)), status, e.encrypted);
    } else {
      var failed := WithError(s, "GenerateProtectedAppSignalsBids").(appSignals := Completed(T.Error));
      CompletedMarks(cfg, failed, T.Error, e.encrypted);
    }
  }

  lemma StepMarks(cfg: Config, s: State, e: Event)
    requires Enabled(cfg, s, e)
    ensures MarksStep(cfg, s, e, After(cfg, s, e))
  {
    if e.StartAudience? {
      StartAudienceMarks(cfg, s, e);
    } else if e.V1SignalsArrive? {
      V1Marks(cfg, s, e);
    } else if e.V2SignalsArrive? {
      V2AnswerMarks(cfg, s, e);
    } else if e.AudienceBidsArrive? {
      AudienceBidsMark(cfg, s, e);
    } else if e.AppSignalsBidsArrive? || e.StartAppSignals? {
      AppSignalsMark(cfg, s, e);
    }
  }

  ghost predicate MarksAt(cfg: Config, t: Trace, k: nat)
    requires k < |t.events| && |t.events| < |t.states|
  {
    MarksStep(cfg, t.states[k], t.events[k], t.states[k + 1])
  }

  lemma {:induction false} MarksSoFar(cfg: Config, t: Trace, k: nat)
    requires k <= |t.events| < |t.states| && t.states[0] == Initial()
    requires forall j: nat :: j < |t.events| ==> MarksAt(cfg, t, j)
    ensures t.states[k].phase == Running <==> StartedBidding(cfg, t, k)
    ensures t.states[k].audience == Lost <==> LostAudience(cfg, t, k)
    ensures t.states[k].audience == Aborted <==> AbortedAudience(cfg, t, k)
    ensures t.states[k].audience == AwaitV1Signals ==> cfg.fetchMode != NotFetched && !cfg.useKvV2
  {
    hide StartsBidding, LosesAudience, AbortsAudience;
    if k > 0 {
      MarksSoFar(cfg, t, k - 1);
      assert MarksAt(cfg, t, k - 1);
    }
  }

  lemma AllMarks(cfg: Config, t: Trace)
    requires IsTrace(cfg, t)
    ensures forall j: nat :: j < |t.events| ==> MarksAt(cfg, t, j)
  {
    forall j: nat | j < |t.events| ensures MarksAt(cfg, t, j) {
      assert StepAt(cfg, t, j);
      StepMarks(cfg, t.states[j], t.events[j]);
    }
  }

  /** A settled run that bid has finished, unless a counted side got lost: app signals input without signals in it, or
      a version 2 request that could not be created. A missing client has finished the RPC, whatever the other side
      does. */
  lemma SettledRunHasFinishedIff(cfg: Config, t: Trace, s: State)
    requires Reaches(cfg, t, s) && Settled(cfg, s)
    ensures |s.finishes| ==
              One(|| !StartedBidding(cfg, t, |t.events|)
                  || AbortedAudience(cfg, t, |t.events|)
                  || (&& !LostAudience(cfg, t, |t.events|)
                      && (cfg.protectedAppSignals && cfg.hasAppSignalsInput ==> cfg.hasAppSignals)))
  {
    ReachedKeepsInv(cfg, t, |t.events|);
    SettledMeans(cfg, s);
    AllMarks(cfg, t);
    MarksSoFar(cfg, t, |t.events|);
  }

  /** A buyer whose app signals input has no signals in it, and who is asked for nothing else. */
  const NO_SIGNALS_CONFIG := Config(false, false, true, true, false, NotFetched, false, false, false)

  /** Its run: the input is counted, nobody is called, and nothing is left to happen. */
  lemma MissingSignalsNeverFinish(encrypted: bool)
    ensures exists t: Trace ::
              && t.events == [Execute(Proceed), StartAppSignals(true, encrypted)] && IsTrace(NO_SIGNALS_CONFIG, t)
              && Settled(NO_SIGNALS_CONFIG, t.states[2]) && t.states[2].finishes == []
  {
    var cfg, execute, start := NO_SIGNALS_CONFIG, Execute(Proceed), StartAppSignals(true, encrypted);
    var running := After(cfg, Initial(), execute);
    var t := Trace([Initial(), running, After(cfg, running, start)], [execute, start]);
    assert StepAt(cfg, t, 0) && StepAt(cfg, t, 1);
    assert Settled(cfg, t.states[2]);
  }

  /** A version 2 request that cannot be created. */
  const LOST_REQUEST_CONFIG := Config(true, true, false, false, false, Required, true, false, false)

  lemma LostRequestNeverFinishes(env: BiddingEnv, encrypted: bool)
    ensures exists t: Trace ::
              && t.events == [Execute(Proceed), StartAudience(SignalsEnv(true, true, false, true), env, encrypted)]
              && IsTrace(LOST_REQUEST_CONFIG, t)
              && Settled(LOST_REQUEST_CONFIG, t.states[2]) && t.states[2].finishes == []
  {
    var cfg, execute := LOST_REQUEST_CONFIG, Execute(Proceed);
    var start := StartAudience(SignalsEnv(true, true, false, true), env, encrypted);
    var running := After(cfg, Initial(), execute);
    var t := Trace([Initial(), running, After(cfg, running, start)], [execute, start]);
    assert StepAt(cfg, t, 0) && StepAt(cfg, t, 1);
    assert Settled(cfg, t.states[2]);
  }

  /** The audience side gets lost only where signals are fetched, by version 2 at first or after a hybrid call. */
  lemma AudienceLostOnlyWithV2(cfg: Config, t: Trace)
    requires IsTrace(cfg, t) && LostAudience(cfg, t, |t.events|)
    ensures cfg.fetchMode != NotFetched && (cfg.useKvV2 || cfg.hybrid)
  {
    AllMarks(cfg, t);
    var k :| 0 <= k < |t.events| && LosesAudience(cfg, t.states[k], t.events[k]);
    MarksSoFar(cfg, t, k);
    assert StepAt(cfg, t, k);
  }

  // ---------- how each side ends ----------

  /** The signals are there, or not needed, and the bidding service can be asked. */
  predicate Prepares(cfg: Config, s: State, e: Event) {
    || (e.StartAudience? && cfg.fetchMode == NotFetched)
    || (&& e.V1SignalsArrive? && !IsCancelled(cfg, s) && e.v1.V1Signals?
        && (cfg.hybrid ==> e.v1.isHybridV1Return))
    || (e.V2SignalsArrive? && !IsCancelled(cfg, s) && e.v2Failure == None)
  }

  /** The bidding service is asked unless the signals do not parse where they are required, no interest group is left,
      or the call fails; signals without any for the groups count as an empty answer. */
  function PreparedStatus(cfg: Config, env: BiddingEnv): Option<T.TaskStatus> {
    if cfg.fetchMode == Required && env.parsed.ParseInvalidArgument? then Some(T.EmptyResponse)
    else if cfg.fetchMode == Required && env.parsed.ParseFailed? then Some(T.Error)
    else if !env.anyInterestGroupLeft then Some(T.EmptyResponse)
    else if !env.biddingCallOk then Some(T.Error)
    else None
  }

  /** An answer of the bidding service: an error and an empty one count even if the client has cancelled. */
  function AnswerStatus<Bid>(cancelled: bool, answer: Answer<Bid>): T.TaskStatus {
    match answer
    case AnswerFailed(_) => T.Error
    case AnswerBids(bids) =>
      if |bids| == 0 then T.EmptyResponse else if cancelled then T.Cancelled else T.Success
  }

  /** How the step ends the audience side, if it does. */
  function EndsAudience(cfg: Config, s: State, e: Event): Option<T.TaskStatus> {
    var cancelled := cfg.enableCancellation && s.clientCancelled;
    if (e.V1SignalsArrive? || e.V2SignalsArrive?) && cancelled then Some(T.Cancelled)
    else if (e.V1SignalsArrive? && e.v1.V1Failed?) || (e.V2SignalsArrive? && e.v2Failure.Some?) then Some(T.Error)
    else if Prepares(cfg, s, e) then PreparedStatus(cfg, e.biddingEnv)
    else if CallsV2(cfg, s, e) then
      var env := e.signalsEnv;
      if env.hasV2Client && env.v2RequestCreated && !env.v2CallOk then Some(T.Error) else None
    else if e.AudienceBidsArrive? then Some(AnswerStatus(cancelled, e.audienceAnswer))
    else None
  }

  /** How the step ends the app signals side, if it does. */
  function EndsAppSignals(cfg: Config, s: State, e: Event): Option<T.TaskStatus> {
    if e.StartAppSignals? && cfg.hasAppSignals && !e.appSignalsCallOk then Some(T.Error)
    else if e.AppSignalsBidsArrive? then
      Some(AnswerStatus(cfg.enableCancellation && s.clientCancelled, e.appSignalsAnswer))
    else None
  }

  /** The sides after a step, with what they wait for. */
  ghost predicate SidesStep(cfg: Config, s: State, e: Event, next: State) {
    && (match EndsAudience(cfg, s, e)
        case Some(status) => next.audience == Completed(status)
        case None =>
          && (Prepares(cfg, s, e) ==> next.audience == AwaitBids)
          && (CallsV2(cfg, s, e) ==> next.audience in {AwaitV2Signals, Lost, Aborted})
          && (e.StartAudience? && !Prepares(cfg, s, e) && !CallsV2(cfg, s, e) ==>
                next.audience in {AwaitV1Signals, Aborted})
          && (!Prepares(cfg, s, e) && !CallsV2(cfg, s, e) && !e.StartAudience? ==> next.audience == s.audience))
    && (match EndsAppSignals(cfg, s, e)
        case Some(status) => next.appSignals == Completed(status)
        case None =>
          if e.StartAppSignals? then next.appSignals == if cfg.hasAppSignals then AwaitBids else Lost
          else next.appSignals == s.appSignals)
    && (next.clientCancelled <==> s.clientCancelled || e.ClientCancels?)
  }

  lemma PreparedSides(cfg: Config, s: State, env: BiddingEnv, encrypted: bool)
    ensures var next := PrepareAndGenerateProtectedAudienceBid(cfg, s, env, encrypted);
      && next.appSignals == s.appSignals && next.clientCancelled == s.clientCancelled
      && next.audience == match PreparedStatus(cfg, env) case Some(status) => Completed(status) case None => AwaitBids
  {
    hide TaskCompleted;
    CompletedMarks(cfg, s.(audience := Completed(T.EmptyResponse)), T.EmptyResponse, encrypted);
    CompletedMarks(cfg, WithError(s, "GenerateBids").(audience := Completed(T.Error)), T.Error, encrypted);
    if env.parsed.ParseFailed? {
      CompletedMarks(cfg, WithError(s, env.parsed.error).(audience := Completed(T.Error)), T.Error, encrypted);
    }
  }

  lemma V2Sides(cfg: Config, s: State, env: SignalsEnv, encrypted: bool)
    ensures var next := MayGetProtectedAudienceBidsV2(cfg, s, env, encrypted);
      && next.appSignals == s.appSignals && next.clientCancelled == s.clientCancelled
      && next.audience == if !env.hasV2Client then Aborted
                          else if !env.v2RequestCreated then Lost
                          else if !env.v2CallOk then Completed(T.Error)
                          else AwaitV2Signals
  {
    hide TaskCompleted;
    CompletedMarks(cfg, WithError(s, "KV lookup").(audience := Completed(T.Error)), T.Error, encrypted);
  }

  lemma SignalsSides(cfg: Config, s: State, e: Event)
    requires Enabled(cfg, s, e) && (e.V1SignalsArrive? || e.V2SignalsArrive?)
    ensures SidesStep(cfg, s, e, After(cfg, s, e))
  {
    hide TaskCompleted, PrepareAndGenerateProtectedAudienceBid, MayGetProtectedAudienceBidsV2;
    CompletedMarks(cfg, s.(audience := Completed(T.Cancelled)), T.Cancelled, e.encrypted);
    PreparedSides(cfg, s, e.biddingEnv, e.encrypted);
    if e.V1SignalsArrive? {
      V2Sides(cfg, s, e.signalsEnv, e.encrypted);
    }
    var error :=
      if e.V1SignalsArrive? && e.v1.V1Failed? then e.v1.error
      else if e.V2SignalsArrive? && e.v2Failure.Some? then e.v2Failure.value
      else "";
    CompletedMarks(cfg, WithError(s, error).(audience := Completed(T.Error)), T.Error, e.encrypted);
  }

  lemma BidsSides(cfg: Config, s: State, e: Event)
    requires Enabled(cfg, s, e) && (e.AudienceBidsArrive? || e.AppSignalsBidsArrive?)
    ensures SidesStep(cfg, s, e, After(cfg, s, e))
  {
    hide TaskCompleted;
    if e.AudienceBidsArrive? {
      var status, answered := StatusOf(cfg, s, e.audienceAnswer), WithAudienceAnswer(cfg, s, e.audienceAnswer);
      CompletedMarks(cfg, answered.(audience := Completed(status)), status, e.encrypted);
    } else {
      var status, answered := StatusOf(cfg, s, e.appSignalsAnswer), WithAppSignalsAnswer(cfg, s, e.appSignalsAnswer);
      CompletedMarks(cfg, answered.(appSignals := Completed(status)), status, e.encrypted);
    }
  }

  lemma StartSides(cfg: Config, s: State, e: Event)
    requires Enabled(cfg, s, e) && (e.StartAudience? || e.StartAppSignals?)
    ensures SidesStep(cfg, s, e, After(cfg, s, e))
  {
    hide TaskCompleted, PrepareAndGenerateProtectedAudienceBid, MayGetProtectedAudienceBidsV2;
    if e.StartAudience? {
      PreparedSides(cfg, s, e.biddingEnv, e.encrypted);
      V2Sides(cfg, s, e.signalsEnv, e.encrypted);
    } else {
      var failed := WithError(s, "GenerateProtectedAppSignalsBids").(appSignals := Completed(T.Error));
      CompletedMarks(cfg, failed, T.Error, e.encrypted);
    }
  }

  lemma StepSides(cfg: Config, s: State, e: Event)
    requires Enabled(cfg, s, e)
    ensures SidesStep(cfg, s, e, After(cfg, s, e))
  {
    if e.StartAudience? || e.StartAppSignals? {
      StartSides(cfg, s, e);
    } else if e.V1SignalsArrive? || e.V2SignalsArrive? {
      SignalsSides(cfg, s, e);
    } else if e.AudienceBidsArrive? || e.AppSignalsBidsArrive? {
      BidsSides(cfg, s, e);
    }
  }

  /** A side that has ended stays so. */
  lemma EndedStays(cfg: Config, s: State, e: Event)
    requires Enabled(cfg, s, e)
    ensures s.audience.Completed? ==> EndsAudience(cfg, s, e) == None && After(cfg, s, e).audience == s.audience
    ensures s.appSignals.Completed? ==>
              EndsAppSignals(cfg, s, e) == None && After(cfg, s, e).appSignals == s.appSignals
  {
    StepSides(cfg, s, e);
    hide After;
  }

  /** Each side has ended with a status exactly if a step of the run ended it with that status. */
  lemma {:induction false} SidesEndAsTheirEventsSay(cfg: Config, t: Trace, k: nat, status: T.TaskStatus)
    requires IsTrace(cfg, t) && k <= |t.events|
    ensures t.states[k].audience == Completed(status) <==>
              exists i :: 0 <= i < k && EndsAudience(cfg, t.states[i], t.events[i]) == Some(status)
    ensures t.states[k].appSignals == Completed(status) <==>
              exists i :: 0 <= i < k && EndsAppSignals(cfg, t.states[i], t.events[i]) == Some(status)
  {
    hide Enabled, After, EndsAudience, EndsAppSignals, CallsV2, Prepares;
    if k > 0 {
      SidesEndAsTheirEventsSay(cfg, t, k - 1, status);
      assert StepAt(cfg, t, k - 1);
      StepSides(cfg, t.states[k - 1], t.events[k - 1]);
      EndedStays(cfg, t.states[k - 1], t.events[k - 1]);
    }
  }

  /** The client has cancelled exactly once it has said so. */
  lemma {:induction false} ClientCancelledIff(cfg: Config, t: Trace, k: nat)
    requires IsTrace(cfg, t) && k <= |t.events|
    ensures t.states[k].clientCancelled <==> exists i :: 0 <= i < k && t.events[i].ClientCancels?
    ensures Enabled(cfg, t.states[k], ClientCancels)
  {
    if k > 0 {
      ClientCancelledIff(cfg, t, k - 1);
      assert StepAt(cfg, t, k - 1);
      StepSides(cfg, t.states[k - 1], t.events[k - 1]);
    }
  }

  predicate EverySideFailed(cfg: Config, s: State) {
    (cfg.protectedAudience && cfg.hasInterestGroups ==> s.audience == Completed(T.Error)) &&
    (cfg.protectedAppSignals && cfg.hasAppSignalsInput ==> s.appSignals == Completed(T.Error))
  }

  lemma VerdictOfSides(cfg: Config, s: State)
    requires s.phase == Running && Inv(cfg, s) && !cfg.enableCancellation && s.results.tracker.pending == 0
    ensures s.results.tracker.AnyTaskSuccessfullyCompleted() <==> !EverySideFailed(cfg, s)
    ensures EverySideFailed(cfg, s) ==> |s.results.errors| == cfg.GetNumberOfMaximumBiddingCalls()
  {
  }

  // ---------- a cancellation that nobody notices ----------

  /** No step is taken while the client has cancelled, other than its cancelling again. */
  ghost predicate NoticesNoCancellation(cfg: Config, t: Trace)
    requires |t.events| < |t.states|
  {
    forall k :: 0 <= k < |t.events| && IsCancelled(cfg, t.states[k]) ==> t.events[k].ClientCancels?
  }

  function WithoutCancellation(cfg: Config): Config {
    cfg.(enableCancellation := false)
  }

  lemma UnnoticedCompletion(cfg: Config, s: State, status: T.TaskStatus, encrypted: bool)
    requires !IsCancelled(cfg, s)
    ensures TaskCompleted(cfg, s, status, encrypted) == TaskCompleted(WithoutCancellation(cfg), s, status, encrypted)
  {
  }

  lemma UnnoticedPreparation(cfg: Config, s: State, env: BiddingEnv, encrypted: bool)
    requires !IsCancelled(cfg, s)
    ensures PrepareAndGenerateProtectedAudienceBid(cfg, s, env, encrypted) ==
            PrepareAndGenerateProtectedAudienceBid(WithoutCancellation(cfg), s, env, encrypted)
  {
    UnnoticedCompletion(cfg, s.(audience := Completed(T.EmptyResponse)), T.EmptyResponse, encrypted);
    UnnoticedCompletion(cfg, WithError(s, "GenerateBids").(audience := Completed(T.Error)), T.Error, encrypted);
    if env.parsed.ParseFailed? {
      UnnoticedCompletion(cfg, WithError(s, env.parsed.error).(audience := Completed(T.Error)), T.Error, encrypted);
    }
  }

  lemma UnnoticedV2(cfg: Config, s: State, env: SignalsEnv, encrypted: bool)
    requires !IsCancelled(cfg, s)
    ensures MayGetProtectedAudienceBidsV2(cfg, s, env, encrypted) ==
            MayGetProtectedAudienceBidsV2(WithoutCancellation(cfg), s, env, encrypted)
  {
    UnnoticedCompletion(cfg, WithError(s, "KV lookup").(audience := Completed(T.Error)), T.Error, encrypted);
  }

  lemma UnnoticedSignals(cfg: Config, s: State, e: Event)
    requires !IsCancelled(cfg, s) && Enabled(cfg, s, e) && (e.V1SignalsArrive? || e.V2SignalsArrive?)
    ensures After(cfg, s, e) == After(WithoutCancellation(cfg), s, e)
  {
    UnnoticedPreparation(cfg, s, e.biddingEnv, e.encrypted);
    if e.V1SignalsArrive? {
      UnnoticedV2(cfg, s, e.signalsEnv, e.encrypted);
    }
    var error :=
      if e.V1SignalsArrive? && e.v1.V1Failed? then e.v1.error
      else if e.V2SignalsArrive? && e.v2Failure.Some? then e.v2Failure.value
      else "";
    UnnoticedCompletion(cfg, WithError(s, error).(audience := Completed(T.Error)), T.Error, e.encrypted);
  }

  lemma UnnoticedBids(cfg: Config, s: State, e: Event)
    requires !IsCancelled(cfg, s) && Enabled(cfg, s, e) && (e.AudienceBidsArrive? || e.AppSignalsBidsArrive?)
    ensures After(cfg, s, e) == After(WithoutCancellation(cfg), s, e)
  {
    if e.AudienceBidsArrive? {
      var status, answered := StatusOf(cfg, s, e.audienceAnswer), WithAudienceAnswer(cfg, s, e.audienceAnswer);
      UnnoticedCompletion(cfg, answered.(audience := Completed(status)), status, e.encrypted);
    } else {
      var status, answered := StatusOf(cfg, s, e.appSignalsAnswer), WithAppSignalsAnswer(cfg, s, e.appSignalsAnswer);
      UnnoticedCompletion(cfg, answered.(appSignals := Completed(status)), status, e.encrypted);
    }
  }

  lemma UnnoticedStart(cfg: Config, s: State, e: Event)
    requires !IsCancelled(cfg, s) && Enabled(cfg, s, e) && (e.StartAudience? || e.StartAppSignals?)
    ensures After(cfg, s, e) == After(WithoutCancellation(cfg), s, e)
  {
    if e.StartAudience? {
      UnnoticedPreparation(cfg, s, e.biddingEnv, e.encrypted);
      UnnoticedV2(cfg, s, e.signalsEnv, e.encrypted);
    } else {
      var failed := WithError(s, "GenerateProtectedAppSignalsBids").(appSignals := Completed(T.Error));
      UnnoticedCompletion(cfg, failed, T.Error, e.encrypted);
    }
  }

  lemma UnnoticedStep(cfg: Config, s: State, e: Event)
    requires Enabled(cfg, s, e) && (IsCancelled(cfg, s) ==> e.ClientCancels?)
    ensures Step(WithoutCancellation(cfg), s, e, After(cfg, s, e))
  {
    if e.StartAudience? || e.StartAppSignals? {
      UnnoticedStart(cfg, s, e);
    } else if e.V1SignalsArrive? || e.V2SignalsArrive? {
      UnnoticedSignals(cfg, s, e);
    } else if e.AudienceBidsArrive? || e.AppSignalsBidsArrive? {
      UnnoticedBids(cfg, s, e);
    }
  }

  /** Such a run is also a run of the server that has cancellation switched off. */
  lemma UnnoticedTrace(cfg: Config, t: Trace)
    requires IsTrace(cfg, t) && NoticesNoCancellation(cfg, t)
    ensures IsTrace(WithoutCancellation(cfg), t)
  {
    forall k: nat | k < |t.events| ensures StepAt(WithoutCancellation(cfg), t, k) {
      assert StepAt(cfg, t, k);
      UnnoticedStep(cfg, t.states[k], t.events[k]);
    }
  }

  /** With every counted side completed, and unless a step was taken after a cancellation, the RPC fails iff every side
      failed, naming each error. */
  lemma FailsIffEverySideFailed(cfg: Config, t: Trace, s: State)
    requires Reaches(cfg, t, s) && s.phase == Running && NoticesNoCancellation(cfg, t)
    requires s.results.tracker.pending == 0
    ensures EverySideFailed(cfg, s) <==> s.finishes == [BidErrors(s.results.errors)]
    ensures EverySideFailed(cfg, s) ==> |s.results.errors| == cfg.GetNumberOfMaximumBiddingCalls()
    ensures !EverySideFailed(cfg, s) ==> s.finishes == [OK] || s.finishes == [Internal]
  {
    var off := WithoutCancellation(cfg);
    UnnoticedTrace(cfg, t);
    ReachedKeepsInv(off, t, |t.events|);
    VerdictOfSides(off, s);
    assert s.finishes == [s.finishes[0]];
  }

  // ---------- the status a run ends with ----------

  /** Some counted side failed, and none delivered an answer, be it an empty one. */
  predicate NothingButErrors(s: State) {
    && (s.audience == Completed(T.Error) || s.appSignals == Completed(T.Error))
    && s.audience !in {Completed(T.Success), Completed(T.EmptyResponse)}
    && s.appSignals !in {Completed(T.Success), Completed(T.EmptyResponse)}
  }

  /** How a request that is not bid for is refused. */
  function EntryStatus(entry: Entry): Status {
    match entry
    case Refuse(status) => status
    case Chaff(_) => Internal
    case BadPriorityVector => InvalidArgument
    case Proceed => InvalidArgument
  }

  /** What the step e from s to next finishes the RPC with. */
  function EndStatus(cfg: Config, s: State, e: Event, next: State): Status {
    if e.ChaffDelayOver? then OK
    else if IsCancelled(cfg, s) && !e.ClientCancels? && !AbortsAudience(cfg, s, e) then Cancelled
    else if e.Execute? then EntryStatus(e.entry)
    else if e.ClientCancels? || AbortsAudience(cfg, s, e) then Internal
    else if NothingButErrors(next) then BidErrors(next.results.errors)
    else if e.encrypted then OK
    else Internal
  }

  /** Every side that is counted has ended. */
  predicate BothEnded(cfg: Config, s: State) {
    && (cfg.protectedAudience && cfg.hasInterestGroups ==> s.audience.Completed?)
    && (cfg.protectedAppSignals && cfg.hasAppSignalsInput ==> s.appSignals.Completed?)
  }

  /** The steps that finish the RPC: refusing the request, sending chaff after its delay, missing a client, or ending
      the last side. */
  predicate Finishes(cfg: Config, s: State, e: Event, next: State) {
    || (e.Execute? && !StartsBidding(cfg, s, e) && (IsCancelled(cfg, s) || e.entry != Chaff(true)))
    || e.ChaffDelayOver?
    || AbortsAudience(cfg, s, e)
    || ((EndsAudience(cfg, s, e).Some? || EndsAppSignals(cfg, s, e).Some?) && BothEnded(cfg, next))
  }

  ghost predicate EndsWell(cfg: Config, s: State, e: Event, next: State) {
    && (next.finishes != [] <==> Finishes(cfg, s, e, next))
    && (next.finishes != [] ==> next.finishes == [EndStatus(cfg, s, e, next)])
  }

  /** The side that has just ended may be the last one. */
  lemma CompletedEnds(cfg: Config, s: State, from: State, status: T.TaskStatus, e: Event)
    requires from.finishes == [] && from.phase == Running && Stages(cfg, from)
    requires Counted(cfg, from.audience, from.appSignals, from.results.tracker.Completed(status))
    requires from.clientCancelled == s.clientCancelled && !AbortsAudience(cfg, s, e)
    requires !e.ClientCancels? && !e.Execute? && !e.ChaffDelayOver?
    requires EndsAudience(cfg, s, e).Some? || EndsAppSignals(cfg, s, e).Some?
    ensures EndsWell(cfg, s, e, TaskCompleted(cfg, from, status, e.encrypted))
  {
  }

  lemma AudienceEnds(cfg: Config, s: State, from: State, status: T.TaskStatus, e: Event)
    requires s.phase == Running && Inv(cfg, s) && s.finishes == []
    requires cfg.CountsAudience() && !s.audience.Completed? && s.audience != Aborted && Possible(cfg, Completed(status))
    requires from == s.(results := s.results.(response := from.results.response, errors := from.results.errors))
    requires !AbortsAudience(cfg, s, e) && !e.ClientCancels? && !e.Execute? && !e.ChaffDelayOver?
    requires EndsAudience(cfg, s, e).Some?
    ensures EndsWell(cfg, s, e, AudienceCompleted(cfg, from, status, e.encrypted))
  {
    hide EndsWell;
    CompletedEnds(cfg, s, from.(audience := Completed(status)), status, e);
  }

  lemma AppSignalsEnds(cfg: Config, s: State, from: State, status: T.TaskStatus, e: Event)
    requires s.phase == Running && Inv(cfg, s) && s.finishes == [] && AudienceStarted(cfg, s) && cfg.hasAppSignals
    requires cfg.CountsAppSignals() && !s.appSignals.Completed? && Possible(cfg, Completed(status))
    requires from == s.(results := s.results.(response := from.results.response, errors := from.results.errors))
    requires (e.AppSignalsBidsArrive? || e.StartAppSignals?) && EndsAppSignals(cfg, s, e).Some?
    ensures EndsWell(cfg, s, e, AppSignalsCompleted(cfg, from, status, e.encrypted))
  {
    hide EndsWell;
    CompletedEnds(cfg, s, from.(appSignals := Completed(status)), status, e);
  }

  lemma PrepareEnds(cfg: Config, s: State, env: BiddingEnv, e: Event)
    requires s.phase == Running && Inv(cfg, s) && s.finishes == []
    requires cfg.CountsAudience() && !s.audience.Completed? && s.audience != Aborted
    requires !AbortsAudience(cfg, s, e) && Prepares(cfg, s, e) && env == e.biddingEnv && !e.AudienceBidsArrive?
    ensures EndsWell(cfg, s, e, PrepareAndGenerateProtectedAudienceBid(cfg, s, env, e.encrypted))
  {
    hide AudienceCompleted, EndStatus, AbortsAudience, StartsBidding;
    if env.parsed == ParseInvalidArgument && cfg.fetchMode == Required {
      AudienceEnds(cfg, s, s, T.EmptyResponse, e);
    } else if env.parsed.ParseFailed? && cfg.fetchMode == Required {
      AudienceEnds(cfg, s, WithError(s, env.parsed.error), T.Error, e);
    } else if !env.anyInterestGroupLeft {
      AudienceEnds(cfg, s, s, T.EmptyResponse, e);
    } else if !env.biddingCallOk {
      AudienceEnds(cfg, s, WithError(s, "GenerateBids"), T.Error, e);
    }
  }

  lemma V2Ends(cfg: Config, s: State, env: SignalsEnv, e: Event)
    requires s.phase == Running && Inv(cfg, s) && s.finishes == []
    requires cfg.CountsAudience() && !s.audience.Completed? && s.audience != Aborted
    requires CallsV2(cfg, s, e) && env == e.signalsEnv
    ensures EndsWell(cfg, s, e, MayGetProtectedAudienceBidsV2(cfg, s, env, e.encrypted))
  {
    hide AudienceCompleted;
    if env.hasV2Client && env.v2RequestCreated && !env.v2CallOk {
      AudienceEnds(cfg, s, WithError(s, "KV lookup"), T.Error, e);
    }
  }

  lemma SignalsEnd(cfg: Config, s: State, e: Event)
    requires Inv(cfg, s) && s.finishes == [] && Enabled(cfg, s, e) && (e.V1SignalsArrive? || e.V2SignalsArrive?)
    ensures EndsWell(cfg, s, e, After(cfg, s, e))
  {
    if IsCancelled(cfg, s) {
      AudienceEnds(cfg, s, s, T.Cancelled, e);
    } else if e.V1SignalsArrive? && e.v1.V1Failed? {
      AudienceEnds(cfg, s, WithError(s, e.v1.error), T.Error, e);
    } else if CallsV2(cfg, s, e) {
      V2Ends(cfg, s, e.signalsEnv, e);
    } else if e.V2SignalsArrive? && e.v2Failure.Some? {
      AudienceEnds(cfg, s, WithError(s, e.v2Failure.value), T.Error, e);
    } else {
      PrepareEnds(cfg, s, e.biddingEnv, e);
    }
  }

  lemma BidsEnd(cfg: Config, s: State, e: Event)
    requires Inv(cfg, s) && s.finishes == [] && Enabled(cfg, s, e)
    requires e.AudienceBidsArrive? || e.AppSignalsBidsArrive?
    ensures EndsWell(cfg, s, e, After(cfg, s, e))
  {
    if e.AudienceBidsArrive? {
      AudienceEnds(cfg, s, WithAudienceAnswer(cfg, s, e.audienceAnswer), StatusOf(cfg, s, e.audienceAnswer), e);
    } else {
      AppSignalsEnds(cfg, s, WithAppSignalsAnswer(cfg, s, e.appSignalsAnswer), StatusOf(cfg, s, e.appSignalsAnswer), e);
    }
  }

  lemma StartEnds(cfg: Config, s: State, e: Event)
    requires Inv(cfg, s) && s.finishes == [] && Enabled(cfg, s, e) && (e.StartAudience? || e.StartAppSignals?)
    ensures EndsWell(cfg, s, e, After(cfg, s, e))
  {
    if e.StartAppSignals? {
      if cfg.hasAppSignals && !e.appSignalsCallOk {
        AppSignalsEnds(cfg, s, WithError(s, "GenerateProtectedAppSignalsBids"), T.Error, e);
      }
    } else if cfg.fetchMode == NotFetched {
      PrepareEnds(cfg, s, e.biddingEnv, e);
    } else if cfg.useKvV2 {
      V2Ends(cfg, s, e.signalsEnv, e);
    }
  }

  lemma StepEnds(cfg: Config, s: State, e: Event)
    requires Inv(cfg, s) && s.finishes == [] && Enabled(cfg, s, e)
    ensures EndsWell(cfg, s, e, After(cfg, s, e))
  {
    if e.StartAudience? || e.StartAppSignals? {
      StartEnds(cfg, s, e);
    } else if e.V1SignalsArrive? || e.V2SignalsArrive? {
      SignalsEnd(cfg, s, e);
    } else if e.AudienceBidsArrive? || e.AppSignalsBidsArrive? {
      BidsEnd(cfg, s, e);
    }
  }

  /** Whichever step of whichever run finishes the RPC, this is the status it finishes it with. */
  lemma StatusOfTheEnd(cfg: Config, t: Trace, k: nat)
    requires IsTrace(cfg, t) && k < |t.events| && t.states[k].finishes == [] && t.states[k + 1].finishes != []
    ensures Finishes(cfg, t.states[k], t.events[k], t.states[k + 1])
    ensures t.states[k + 1].finishes == [EndStatus(cfg, t.states[k], t.events[k], t.states[k + 1])]
  {
    hide Inv, Enabled, After, EndStatus, Finishes;
    ReachedKeepsInv(cfg, t, k);
    assert StepAt(cfg, t, k);
    StepEnds(cfg, t.states[k], t.events[k]);
  }

  /** A step that is one of those that finish the RPC does so. */
  lemma FinishesIffItShould(cfg: Config, t: Trace, k: nat)
    requires IsTrace(cfg, t) && k < |t.events| && t.states[k].finishes == []
    ensures t.states[k + 1].finishes != [] <==> Finishes(cfg, t.states[k], t.events[k], t.states[k + 1])
  {
    hide Inv, Enabled, After, EndStatus, Finishes;
    ReachedKeepsInv(cfg, t, k);
    assert StepAt(cfg, t, k);
    StepEnds(cfg, t.states[k], t.events[k]);
  }

  // ---------- no run goes on for ever ----------

  function StageWork(stage: Stage): nat {
    match stage
    case ToStart => 4
    case AwaitV1Signals => 3
    case AwaitV2Signals => 2
    case AwaitBids => 1
    case _ => 0
  }

  /** What the server still has to do. */
  function Work(s: State): nat {
    (if s.phase == NotExecuted then 2 else if s.phase == ChaffWaiting then 1 else 0) +
    StageWork(s.audience) + StageWork(s.appSignals)
  }

  lemma CompletedWork(cfg: Config, s: State, status: T.TaskStatus, encrypted: bool)
    ensures Work(TaskCompleted(cfg, s, status, encrypted)) == Work(s)
  {
  }

  lemma PrepareWork(cfg: Config, s: State, env: BiddingEnv, encrypted: bool)
    requires StageWork(s.audience) > 1
    ensures Work(PrepareAndGenerateProtectedAudienceBid(cfg, s, env, encrypted)) < Work(s)
  {
    CompletedWork(cfg, s.(audience := Completed(T.EmptyResponse)), T.EmptyResponse, encrypted);
    CompletedWork(cfg, WithError(s, "GenerateBids").(audience := Completed(T.Error)), T.Error, encrypted);
    if env.parsed.ParseFailed? {
      CompletedWork(cfg, WithError(s, env.parsed.error).(audience := Completed(T.Error)), T.Error, encrypted);
    }
  }

  lemma V2Work(cfg: Config, s: State, env: SignalsEnv, encrypted: bool)
    requires StageWork(s.audience) > 2
    ensures Work(MayGetProtectedAudienceBidsV2(cfg, s, env, encrypted)) < Work(s)
  {
    CompletedWork(cfg, WithError(s, "KV lookup").(audience := Completed(T.Error)), T.Error, encrypted);
  }

  lemma SignalsWork(cfg: Config, s: State, e: Event)
    requires Enabled(cfg, s, e) && (e.V1SignalsArrive? || e.V2SignalsArrive?)
    ensures Work(After(cfg, s, e)) < Work(s)
  {
    CompletedWork(cfg, s.(audience := Completed(T.Cancelled)), T.Cancelled, e.encrypted);
    PrepareWork(cfg, s, e.biddingEnv, e.encrypted);
    if e.V1SignalsArrive? {
      V2Work(cfg, s, e.signalsEnv, e.encrypted);
      if e.v1.V1Failed? {
        CompletedWork(cfg, WithError(s, e.v1.error).(audience := Completed(T.Error)), T.Error, e.encrypted);
      }
    } else if e.v2Failure.Some? {
      CompletedWork(cfg, WithError(s, e.v2Failure.value).(audience := Completed(T.Error)), T.Error, e.encrypted);
    }
  }

  lemma AudienceBidsWork(cfg: Config, s: State, answer: Answer<AdWithBid>, encrypted: bool)
    requires s.audience == AwaitBids
    ensures Work(OnAudienceBids(cfg, s, answer, encrypted)) < Work(s)
  {
    var status := StatusOf(cfg, s, answer);
    var next := WithAudienceAnswer(cfg, s, answer);
    CompletedWork(cfg, next.(audience := Completed(status)), status, encrypted);
  }

  lemma AppSignalsBidsWork(cfg: Config, s: State, answer: Answer<ProtectedAppSignalsAdWithBid>, encrypted: bool)
    requires s.appSignals == AwaitBids
    ensures Work(OnAppSignalsBids(cfg, s, answer, encrypted)) < Work(s)
  {
    var status := StatusOf(cfg, s, answer);
    var next := WithAppSignalsAnswer(cfg, s, answer);
    CompletedWork(cfg, next.(appSignals := Completed(status)), status, encrypted);
  }

  lemma StartWork(cfg: Config, s: State, e: Event)
    requires Enabled(cfg, s, e) && (e.StartAudience? || e.StartAppSignals?)
    ensures Work(After(cfg, s, e)) < Work(s)
  {
    if e.StartAudience? {
      if cfg.fetchMode == NotFetched {
        PrepareWork(cfg, s, e.biddingEnv, e.encrypted);
      } else if cfg.useKvV2 {
        V2Work(cfg, s, e.signalsEnv, e.encrypted);
      }
    } else {
      var failed := WithError(s, "GenerateProtectedAppSignalsBids").(appSignals := Completed(T.Error));
      CompletedWork(cfg, failed, T.Error, e.encrypted);
    }
  }

  function ServerEvents(events: seq<Event>): nat {
    if events == [] then 0
    else ServerEvents(events[..|events| - 1]) + One(!events[|events| - 1].ClientCancels?)
  }

  lemma StepDoesWork(cfg: Config, s: State, e: Event)
    requires Enabled(cfg, s, e) && !e.ClientCancels?
    ensures Work(After(cfg, s, e)) < Work(s)
  {
    if e.V1SignalsArrive? || e.V2SignalsArrive? {
      SignalsWork(cfg, s, e);
    } else if e.AudienceBidsArrive? {
      AudienceBidsWork(cfg, s, e.audienceAnswer, e.encrypted);
    } else if e.AppSignalsBidsArrive? {
      AppSignalsBidsWork(cfg, s, e.appSignalsAnswer, e.encrypted);
    } else if e.StartAudience? || e.StartAppSignals? {
      StartWork(cfg, s, e);
    }
  }

  lemma {:induction false} WorkRunsOut(cfg: Config, t: Trace, k: nat)
    requires IsTrace(cfg, t) && k <= |t.events|
    ensures ServerEvents(t.events[..k]) + Work(t.states[k]) <= 10
  {
    if k > 0 {
      var s, e := t.states[k - 1], t.events[k - 1];
      assert StepAt(cfg, t, k - 1);
      WorkRunsOut(cfg, t, k - 1);
      assert t.events[..k][..k - 1] == t.events[..k - 1];
      if !e.ClientCancels? {
        StepDoesWork(cfg, s, e);
      }
    }
  }

  /** Every run settles: there are at most ten events on the server's side. */
  lemma RunsAreBounded(cfg: Config, t: Trace)
    requires IsTrace(cfg, t)
    ensures ServerEvents(t.events) <= 10
  {
    WorkRunsOut(cfg, t, |t.events|);
    assert t.events[..|t.events|] == t.events;
  }

  // ---------- what the response holds ----------

  /** The bids in the last answer of the bidding service. */
  function AudienceDelivered(events: seq<Event>): seq<AdWithBid> {
    if events == [] then []
    else
      var e := events[|events| - 1];
      if e.AudienceBidsArrive? && e.audienceAnswer.AnswerBids? then e.audienceAnswer.bids
      else AudienceDelivered(events[..|events| - 1])
  }

  function AppSignalsDelivered(events: seq<Event>): seq<ProtectedAppSignalsAdWithBid> {
    if events == [] then []
    else
      var e := events[|events| - 1];
      if e.AppSignalsBidsArrive? && e.appSignalsAnswer.AnswerBids? then e.appSignalsAnswer.bids
      else AppSignalsDelivered(events[..|events| - 1])
  }

  ghost predicate HoldsDelivered(s: State, events: seq<Event>) {
    s.results.response == GetBidsResponse(
      if s.audience == Completed(T.Success) then AudienceDelivered(events) else [],
      if s.appSignals == Completed(T.Success) then AppSignalsDelivered(events) else [])
  }

  /** A step that brings no answer changes neither the response nor whether a side has succeeded. */
  lemma TaskCompletedFrame(cfg: Config, s: State, status: T.TaskStatus, encrypted: bool)
    ensures var next := TaskCompleted(cfg, s, status, encrypted);
      && next.results.response == s.results.response
      && next.audience == s.audience && next.appSignals == s.appSignals
  {
  }

  ghost predicate SameSuccesses(s: State, next: State) {
    && next.results.response == s.results.response
    && (next.audience == Completed(T.Success) <==> s.audience == Completed(T.Success))
    && (next.appSignals == Completed(T.Success) <==> s.appSignals == Completed(T.Success))
  }

  lemma AudienceFailureKeepsResponse(
    cfg: Config, s: State, next: State, status: T.TaskStatus, encrypted: bool)
    requires !s.audience.Completed? && status != T.Success
    requires next == s.(results := s.results.(errors := next.results.errors))
    ensures SameSuccesses(s, AudienceCompleted(cfg, next, status, encrypted))
  {
    TaskCompletedFrame(cfg, next.(audience := Completed(status)), status, encrypted);
  }

  lemma PrepareKeepsResponse(cfg: Config, s: State, env: BiddingEnv, encrypted: bool)
    requires !s.audience.Completed?
    ensures SameSuccesses(s, PrepareAndGenerateProtectedAudienceBid(cfg, s, env, encrypted))
  {
    AudienceFailureKeepsResponse(cfg, s, s, T.EmptyResponse, encrypted);
    AudienceFailureKeepsResponse(cfg, s, WithError(s, "GenerateBids"), T.Error, encrypted);
    if env.parsed.ParseFailed? {
      AudienceFailureKeepsResponse(cfg, s, WithError(s, env.parsed.error), T.Error, encrypted);
    }
  }

  lemma V2KeepsResponse(cfg: Config, s: State, env: SignalsEnv, encrypted: bool)
    requires !s.audience.Completed?
    ensures SameSuccesses(s, MayGetProtectedAudienceBidsV2(cfg, s, env, encrypted))
  {
    AudienceFailureKeepsResponse(cfg, s, WithError(s, "KV lookup"), T.Error, encrypted);
  }

  lemma V1AnswerKeepsResponse(
    cfg: Config, s: State, v1: V1Answer, signalsEnv: SignalsEnv, biddingEnv: BiddingEnv, encrypted: bool)
    requires !s.audience.Completed?
    ensures SameSuccesses(s, OnV1Signals(cfg, s, v1, signalsEnv, biddingEnv, encrypted))
  {
    if IsCancelled(cfg, s) {
      AudienceFailureKeepsResponse(cfg, s, s, T.Cancelled, encrypted);
    } else if v1.V1Failed? {
      AudienceFailureKeepsResponse(cfg, s, WithError(s, v1.error), T.Error, encrypted);
    } else if cfg.hybrid && !v1.isHybridV1Return {
      V2KeepsResponse(cfg, s, signalsEnv, encrypted);
    } else {
      PrepareKeepsResponse(cfg, s, biddingEnv, encrypted);
    }
  }

  lemma V2AnswerKeepsResponse(cfg: Config, s: State, failure: Option<string>, env: BiddingEnv, encrypted: bool)
    requires !s.audience.Completed?
    ensures SameSuccesses(s, OnV2Signals(cfg, s, failure, env, encrypted))
  {
    if IsCancelled(cfg, s) {
      AudienceFailureKeepsResponse(cfg, s, s, T.Cancelled, encrypted);
    } else if failure.Some? {
      AudienceFailureKeepsResponse(cfg, s, WithError(s, failure.value), T.Error, encrypted);
    } else {
      PrepareKeepsResponse(cfg, s, env, encrypted);
    }
  }

  lemma StartAudienceKeepsResponse(
    cfg: Config, s: State, signalsEnv: SignalsEnv, biddingEnv: BiddingEnv, encrypted: bool)
    requires !s.audience.Completed?
    ensures SameSuccesses(s, MayGetProtectedAudienceBids(cfg, s, signalsEnv, biddingEnv, encrypted))
  {
    if cfg.fetchMode == NotFetched {
      PrepareKeepsResponse(cfg, s, biddingEnv, encrypted);
    } else if cfg.useKvV2 {
      V2KeepsResponse(cfg, s, signalsEnv, encrypted);
    }
  }

  lemma StartAppSignalsKeepsResponse(cfg: Config, s: State, callOk: bool, encrypted: bool)
    requires !s.appSignals.Completed?
    ensures SameSuccesses(s, MayGetProtectedSignalsBids(cfg, s, callOk, encrypted))
  {
    var failed := WithError(s, "GenerateProtectedAppSignalsBids").(appSignals := Completed(T.Error));
    TaskCompletedFrame(cfg, failed, T.Error, encrypted);
  }

  /** A step that brings no bids changes neither the response nor whether a side has succeeded. */
  lemma OtherStepsKeepResponse(cfg: Config, s: State, e: Event)
    requires Enabled(cfg, s, e) && !e.AudienceBidsArrive? && !e.AppSignalsBidsArrive?
    ensures SameSuccesses(s, After(cfg, s, e))
  {
    match e
    case ClientCancels =>
    case Execute(_) =>
    case ChaffDelayOver =>
    case StartAudience(signalsEnv, biddingEnv, encrypted) =>
      StartAudienceKeepsResponse(cfg, s, signalsEnv, biddingEnv, encrypted);
    case StartAppSignals(callOk, encrypted) => StartAppSignalsKeepsResponse(cfg, s, callOk, encrypted);
    case V1SignalsArrive(v1, signalsEnv, biddingEnv, encrypted) =>
      V1AnswerKeepsResponse(cfg, s, v1, signalsEnv, biddingEnv, encrypted);
    case V2SignalsArrive(failure, biddingEnv, encrypted) =>
      V2AnswerKeepsResponse(cfg, s, failure, biddingEnv, encrypted);
  }

  lemma AudienceBidsUpdateResponse(cfg: Config, s: State, answer: Answer<AdWithBid>, encrypted: bool)
    ensures var next := OnAudienceBids(cfg, s, answer, encrypted);
      && next.appSignals == s.appSignals
      && (if next.audience == Completed(T.Success)
          then answer.AnswerBids? && next.results.response == s.results.response.(bids := answer.bids)
          else next.results.response == s.results.response)
  {
    var status := StatusOf(cfg, s, answer);
    var next := WithAudienceAnswer(cfg, s, answer);
    TaskCompletedFrame(cfg, next.(audience := Completed(status)), status, encrypted);
  }

  lemma AppSignalsBidsUpdateResponse(
    cfg: Config, s: State, answer: Answer<ProtectedAppSignalsAdWithBid>, encrypted: bool)
    ensures var next := OnAppSignalsBids(cfg, s, answer, encrypted);
      && next.audience == s.audience
      && (if next.appSignals == Completed(T.Success)
          then answer.AnswerBids? &&
               next.results.response == s.results.response.(protectedAppSignalsBids := answer.bids)
          else next.results.response == s.results.response)
  {
    var status := StatusOf(cfg, s, answer);
    var next := WithAppSignalsAnswer(cfg, s, answer);
    TaskCompletedFrame(cfg, next.(appSignals := Completed(status)), status, encrypted);
  }

  lemma StepKeepsDelivered(cfg: Config, s: State, e: Event, next: State, events: seq<Event>)
    requires Step(cfg, s, e, next) && HoldsDelivered(s, events)
    ensures HoldsDelivered(next, events + [e])
  {
    assert (events + [e])[..|events|] == events;
    if e.AudienceBidsArrive? {
      AudienceBidsUpdateResponse(cfg, s, e.audienceAnswer, e.encrypted);
    } else if e.AppSignalsBidsArrive? {
      AppSignalsBidsUpdateResponse(cfg, s, e.appSignalsAnswer, e.encrypted);
    } else {
      OtherStepsKeepResponse(cfg, s, e);
    }
  }

  lemma {:induction false} DeliveredSoFar(cfg: Config, t: Trace, k: nat)
    requires IsTrace(cfg, t) && k <= |t.events|
    ensures HoldsDelivered(t.states[k], t.events[..k])
  {
    if k > 0 {
      DeliveredSoFar(cfg, t, k - 1);
      assert t.events[..k] == t.events[..k - 1] + [t.events[k - 1]];
      assert StepAt(cfg, t, k - 1);
      StepKeepsDelivered(cfg, t.states[k - 1], t.events[k - 1], t.states[k], t.events[..k - 1]);
    }
  }

  /** Whatever the order, each list is what its own service delivered, and a failed side adds nothing. */
  lemma ResponseHoldsWhatWasDelivered(cfg: Config, t: Trace, s: State)
    requires Reaches(cfg, t, s)
    ensures s.results.response.bids ==
              if s.audience == Completed(T.Success) then AudienceDelivered(t.events) else []
    ensures s.results.response.protectedAppSignalsBids ==
              if s.appSignals == Completed(T.Success) then AppSignalsDelivered(t.events) else []
  {
    DeliveredSoFar(cfg, t, |t.events|);
    assert t.events[..|t.events|] == t.events;
  }
}
