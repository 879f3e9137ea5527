/** What every run of the SelectAd reactor keeps: at most one Finish, scoring last, no task counted twice, an end. */
module SelectAdProtocol {
  import opened Sequences
  import opened BidTypes
  import opened BuyerSelection
  import opened CurrencyFilter
  import opened KAnonHashes
  import opened SelectAdReactor
  import T = TaskTracker

  // ---------- the protocol invariant ----------

  function One(b: bool): nat {
    if b then 1 else 0
  }

  /** Tasks that were counted but belong to no request: a replay can have some. */
  function Orphans(run: Run): int {
    run.tracked - |run.requests|
  }

  ghost predicate BidsPhase(run: Run, b: Buyers) {
    && b.tracker.tracked == run.tracked
    && b.tracker.pending == |b.toSolicit| + b.toSkip + |b.awaited| + Orphans(run)
    && b.tracker.pending <= run.tracked
    && b.allDone <= 1
    && (b.allDone == 1 ==> b.tracker.pending == 0)
    && (run.tracked > 0 && b.tracker.pending == 0 ==> b.allDone == 1)
  }

  ghost predicate NothingYet(s: State) {
    s.scoreRequests == [] && !s.scoring && s.finishes == [] && !s.crashed
  }

  /** Neither lookup has started. */
  ghost predicate AtRest(cfg: Config, l: Lookups) {
    l.kAnon == Idle && l.signalsTask == Idle && l.join.pending == cfg.JoinTasks()
  }

  /** Both lookups that are due have started, and some task is still counted. */
  ghost predicate Looking(cfg: Config, l: Lookups, counted: int) {
    && (cfg.enforceKAnon || cfg.fetchSignals)
    && (cfg.enforceKAnon <==> l.kAnon != Idle) && (cfg.fetchSignals <==> l.signalsTask != Idle)
    && l.kAnon !in {Aborted, Lost} && (l.signalsTask == Lost ==> cfg.useKvV2)
    && counted == One(cfg.enforceKAnon && l.kAnon != Ended) + One(cfg.fetchSignals && l.signalsTask != Ended)
  }

  /** Every lookup that is due has ended with its task completed. */
  ghost predicate Joined(cfg: Config, l: Lookups) {
    if cfg.enforceKAnon || cfg.fetchSignals
    then
      && l.join.pending == 0
      && l.kAnon == (if cfg.enforceKAnon then Ended else Idle)
      && l.signalsTask == (if cfg.fetchSignals then Ended else Idle)
    else AtRest(cfg, l)
  }

  /** Before all bids are in. */
  ghost predicate Collecting(cfg: Config, s: State) {
    s.buyers.allDone == 0 && AtRest(cfg, s.lookups) && NothingYet(s)
  }

  /** The lookups run; only a lookup that aborts has finished the RPC. */
  ghost predicate Joining(cfg: Config, s: State) {
    && s.buyers.allDone == 1
    && Looking(cfg, s.lookups, s.lookups.join.pending) && s.lookups.join.pending > 0
    && s.scoreRequests == [] && !s.scoring
    && |s.finishes| == One(s.lookups.signalsTask == Aborted)
    && (s.crashed ==> s.lookups.signalsTask == InFlight && cfg.useKvV2)
  }

  /** The join is over; either scores are awaited or the RPC is finished. */
  ghost predicate Concluding(cfg: Config, s: State) {
    && s.buyers.allDone == 1
    && Joined(cfg, s.lookups)
    && |s.scoreRequests| <= 1
    && (s.scoring ==> |s.scoreRequests| == 1)
    && (s.scoreRequests != [] && cfg.fetchSignals ==> s.lookups.signals == Fetched(false))
    && |s.finishes| == One(!s.scoring) && !s.crashed
  }

  /** Finished without starting either lookup. */
  ghost predicate GivenUp(cfg: Config, s: State) {
    && s.buyers.allDone == 1 && AtRest(cfg, s.lookups)
    && s.scoreRequests == [] && !s.scoring && |s.finishes| == 1 && !s.crashed
  }

  ghost predicate InPhase(cfg: Config, s: State) {
    Collecting(cfg, s) || Joining(cfg, s) || Concluding(cfg, s) || GivenUp(cfg, s)
  }

  ghost predicate Inv(cfg: Config, run: Run, s: State) {
    && BidsPhase(run, s.buyers) && InPhase(cfg, s)
  }

  // ---------- every step keeps the invariant ----------

  lemma ScoreAdsConcludes(cfg: Config, s: State, c: Choices)
    requires s.buyers.allDone == 1 && Joined(cfg, s.lookups) && NothingYet(s)
    requires cfg.fetchSignals ==> s.lookups.signals == Fetched(false)
    ensures Concluding(cfg, ScoreAds(cfg, s, c))
    ensures ScoreAds(cfg, s, c).buyers == s.buyers
  {
  }

  lemma SignalsDoneConcludes(cfg: Config, s: State, c: Choices)
    requires s.buyers.allDone == 1 && Joined(cfg, s.lookups) && NothingYet(s)
    ensures Concluding(cfg, OnFetchScoringSignalsDone(cfg, s, c))
    ensures OnFetchScoringSignalsDone(cfg, s, c).buyers == s.buyers
  {
    if !cfg.fetchSignals || s.lookups.signals == Fetched(false) {
      ScoreAdsConcludes(cfg, s, c);
    }
  }

  /** One of the lookups has just ended, and its task is still counted. */
  lemma JoinStep(cfg: Config, s: State, lookups: Lookups, status: T.TaskStatus, c: Choices)
    requires s.buyers.allDone == 1 && Looking(cfg, lookups, lookups.join.pending - 1)
    requires s.scoreRequests == [] && !s.scoring && !s.crashed
    requires |s.finishes| == One(lookups.signalsTask == Aborted)
    ensures InPhase(cfg, JoinTaskCompleted(cfg, s, lookups, status, c))
    ensures JoinTaskCompleted(cfg, s, lookups, status, c).buyers == s.buyers
  {
    var next := s.(lookups := lookups.(join := lookups.join.Completed(status)));
    if next.lookups.join.pending == 0 {
      SignalsDoneConcludes(cfg, next, c);
    }
  }

  lemma AllBidsDoneStep(cfg: Config, s: State, any: bool, c: Choices)
    requires Collecting(cfg, s)
    ensures InPhase(cfg, OnAllBidsDone(cfg, s, any, c))
    ensures OnAllBidsDone(cfg, s, any, c).buyers ==
              s.buyers.(allDone := 1, bids := OnAllBidsDone(cfg, s, any, c).buyers.bids)
  {
    hide ScoreAds;
    var filtered := s.(buyers := s.buyers.(allDone := 1, bids := c.filtered));
    if !cfg.fetchSignals && !cfg.enforceKAnon {
      ScoreAdsConcludes(cfg, filtered, c);
    }
  }

  lemma BidTaskStep(cfg: Config, run: Run, s: State, buyers: Buyers, status: T.TaskStatus, c: Choices)
    requires Collecting(cfg, s) && buyers.allDone == 0
    requires BidsPhase(run, buyers.(tracker := buyers.tracker.(pending := buyers.tracker.pending - 1), allDone :=
               One(buyers.tracker.pending == 1)))
    ensures Inv(cfg, run, BidTaskCompleted(cfg, s, buyers, status, c))
  {
    var next := s.(buyers := buyers.(tracker := buyers.tracker.Completed(status)));
    if next.buyers.tracker.pending == 0 {
      AllBidsDoneStep(cfg, next, next.buyers.tracker.AnyTaskSuccessfullyCompleted(), c);
    }
  }

  lemma SendKeepsInv(cfg: Config, run: Run, s: State, outcome: SendOutcome, c: Choices)
    requires Orphans(run) >= 0 && Inv(cfg, run, s) && s.buyers.toSolicit != []
    ensures Inv(cfg, run, FetchBid(cfg, s, outcome, c))
  {
    var taken := s.buyers.(toSolicit := s.buyers.toSolicit[1..]);
    if IsCancelled(cfg, s) {
      BidTaskStep(cfg, run, s, taken, T.Cancelled, c);
    } else if outcome == NoBuyerClient {
      BidTaskStep(cfg, run, s, taken, T.Skipped, c);
    } else if outcome == SendFails {
      BidTaskStep(cfg, run, s, taken, T.Error, c);
    }
  }

  lemma BidsArriveKeepsInv(cfg: Config, run: Run, s: State, k: nat, response: Option<GetBidsResponse>, c: Choices)
    requires Orphans(run) >= 0 && Inv(cfg, run, s) && k < |s.buyers.awaited|
    ensures Inv(cfg, run, OnFetchBidsDone(cfg, s, k, response, c))
  {
    var received := Received(cfg, s, k, response);
    BidTaskStep(cfg, run, s, received, FetchBidStatus(cfg, s, response), c);
  }

  lemma QueryKeepsInv(cfg: Config, run: Run, s: State, sets: HashSets, lookupCallOk: bool, c: Choices)
    requires Inv(cfg, run, s) && s.lookups.kAnon == Scheduled && !s.crashed
    ensures Inv(cfg, run, OnQueryKAnonHashes(cfg, s, sets, lookupCallOk, c))
  {
    var queried := s.lookups.(hashSets := sets, kAnon := Ended);
    JoinStep(cfg, s, queried, T.Skipped, c);
    JoinStep(cfg, s, queried.(statuses := StatusesFor(cfg.enforceKAnon, sets, {})), T.Error, c);
  }

  lemma AnswerKeepsInv(cfg: Config, run: Run, s: State, known: Option<set<string>>, c: Choices)
    requires Inv(cfg, run, s) && s.lookups.kAnon == InFlight && !s.crashed
    ensures Inv(cfg, run, OnKAnonAnswer(cfg, s, known, c))
  {
    var answered := s.lookups.(kAnon := Ended);
    match known
    case None => JoinStep(cfg, s, answered, T.Error, c);
    case Some(hashes) =>
      var statuses := StatusesFor(cfg.enforceKAnon, s.lookups.hashSets, hashes);
      JoinStep(cfg, s, answered.(answer := known, statuses := statuses), T.Success, c);
  }

  lemma SignalsKeepInv(cfg: Config, run: Run, s: State, result: Signals, c: Choices)
    requires Inv(cfg, run, s) && s.lookups.signalsTask == InFlight && !s.crashed
    requires result == NotConverted ==> cfg.useKvV2
    ensures Inv(cfg, run, OnSignals(cfg, s, result, c))
  {
    var ended := s.lookups.(signalsTask := Ended);
    if !cfg.useKvV2 && IsCancelled(cfg, s) {
      JoinStep(cfg, s, ended, T.Cancelled, c);
    } else if !cfg.useKvV2 || (!IsCancelled(cfg, s) && result.Fetched?) {
      JoinStep(cfg, s, ended.(signals := result), T.Success, c);
    }
  }

  lemma FetchKeepsInv(cfg: Config, run: Run, s: State, call: SignalsCall)
    requires Inv(cfg, run, s) && s.lookups.signalsTask == Scheduled
    requires cfg.useKvV2 || call in {NoProvider, Called}
    ensures Inv(cfg, run, FetchScoringSignals(cfg, s, call))
  {
  }

  lemma ScoresKeepInv(cfg: Config, run: Run, s: State, result: ScoreResult, c: Choices)
    requires Inv(cfg, run, s) && s.scoring
    ensures Inv(cfg, run, OnScores(cfg, s, result, c))
  {
  }

  lemma NobodyKeepsInv(cfg: Config, run: Run, s: State, c: Choices)
    requires Orphans(run) >= 0 && Inv(cfg, run, s) && s.buyers.tracker.tracked == 0 && s.buyers.allDone == 0
    ensures Inv(cfg, run, OnAllBidsDone(cfg, s, true, c))
  {
    AllBidsDoneStep(cfg, s, true, c);
  }

  lemma SkipKeepsInv(cfg: Config, run: Run, s: State, c: Choices)
    requires Orphans(run) >= 0 && Inv(cfg, run, s) && s.buyers.toSolicit == [] && s.buyers.toSkip > 0
    ensures Inv(cfg, run, BidTaskCompleted(cfg, s, s.buyers.(toSkip := s.buyers.toSkip - 1), T.Skipped, c))
  {
    BidTaskStep(cfg, run, s, s.buyers.(toSkip := s.buyers.toSkip - 1), T.Skipped, c);
  }

  lemma StepKeepsInv(cfg: Config, run: Run, s: State, e: Event)
    requires Orphans(run) >= 0
    requires Inv(cfg, run, s) && Enabled(cfg, s, e)
    ensures Inv(cfg, run, After(cfg, s, e))
  {
    hide OnAllBidsDone, FetchBid, BidTaskCompleted, OnFetchBidsDone, OnQueryKAnonHashes, OnKAnonAnswer;
    hide FetchScoringSignals, OnSignals, OnScores;
    match e
    case ClientCancels =>
    case NobodyToAsk(c) => NobodyKeepsInv(cfg, run, s, c);
    case SendNext(outcome, c) => SendKeepsInv(cfg, run, s, outcome, c);
    case SkipNext(c) => SkipKeepsInv(cfg, run, s, c);
    case BidsArrive(k, response, c) => BidsArriveKeepsInv(cfg, run, s, k, response, c);
    case QueryKAnon(sets, lookupCallOk, c) => QueryKeepsInv(cfg, run, s, sets, lookupCallOk, c);
    case KAnonAnswers(known, c) => AnswerKeepsInv(cfg, run, s, known, c);
    case FetchSignals(call) => FetchKeepsInv(cfg, run, s, call);
    case SignalsArrive(answered, c) => SignalsKeepInv(cfg, run, s, answered, c);
    case ScoresArrive(scores, c) => ScoresKeepInv(cfg, run, s, scores, c);
  }

  // ---------- what holds in every run ----------

  lemma OrphansAreNotNegative(request: Request, run: Run)
    requires IsRun(request, run)
    ensures Orphans(run) >= 0 && |run.solicited| + run.skipped == |run.requests|
    ensures Orphans(run) == 0 <==>
              (request.invokedBuyers.Some? ==>
                 forall b :: b in request.invokedBuyers.value.nonChaffBuyerNames ==> b in request.buyerInputs)
  {
    if request.invokedBuyers.Some? {
      var invoked := request.invokedBuyers.value;
      ReplayConservesTasksIff(request, run);
      RealsAndChaffsPartition(run.requests);
      SameLength(RealsOf(run.requests), KeepIf(b => b in request.buyerInputs, invoked.nonChaffBuyerNames));
      SameLength(ChaffsOf(run.requests), invoked.chaffBuyerNames);
      KeepIfLength(b => b in request.buyerInputs, invoked.nonChaffBuyerNames);
    }
  }

  lemma InitialInv(cfg: Config, request: Request, run: Run)
    requires IsRun(request, run)
    ensures Inv(cfg, run, Initial(cfg, run))
  {
    OrphansAreNotNegative(request, run);
  }

  lemma {:induction false} TraceKeepsInv(cfg: Config, run: Run, t: Trace, k: nat)
    requires Orphans(run) >= 0 && Inv(cfg, run, Initial(cfg, run))
    requires IsTrace(cfg, run, t) && k <= |t.events|
    ensures Inv(cfg, run, t.states[k])
  {
    hide Inv, Enabled, After;
    if k > 0 {
      TraceKeepsInv(cfg, run, t, k - 1);
      assert StepAt(cfg, t, k - 1);
      StepKeepsInv(cfg, run, t.states[k - 1], t.events[k - 1]);
    }
  }

  lemma ReachedKeepsInv(cfg: Config, request: Request, run: Run, t: Trace, k: nat)
    requires IsRun(request, run) && IsTrace(cfg, run, t) && k <= |t.events|
    ensures Inv(cfg, run, t.states[k])
  {
    OrphansAreNotNegative(request, run);
    InitialInv(cfg, request, run);
    TraceKeepsInv(cfg, run, t, k);
  }

  lemma InvMeans(cfg: Config, run: Run, s: State)
    requires Orphans(run) >= 0 && Inv(cfg, run, s)
    ensures |s.finishes| <= 1 && |s.scoreRequests| <= 1 && (s.scoring ==> s.finishes == [])
    ensures 0 <= s.buyers.tracker.pending <= run.tracked && 0 <= s.lookups.join.pending <= cfg.JoinTasks()
  {
  }

  /** At most one Finish and one ScoreAds call; no tracked task is completed twice. */
  lemma AtMostOnce(cfg: Config, request: Request, run: Run, t: Trace, s: State)
    requires IsRun(request, run) && Reaches(cfg, run, t, s)
    ensures |s.finishes| <= 1 && |s.scoreRequests| <= 1 && (s.scoring ==> s.finishes == [])
    ensures 0 <= s.buyers.tracker.pending <= run.tracked && 0 <= s.lookups.join.pending <= cfg.JoinTasks()
  {
    OrphansAreNotNegative(request, run);
    ReachedKeepsInv(cfg, request, run, t, |t.events|);
    InvMeans(cfg, run, s);
  }

  /** Scoring starts only when every buyer's task and both lookups are done, and the signals are there. */
  lemma ScoringWaitsForEverything(cfg: Config, request: Request, run: Run, t: Trace, s: State)
    requires IsRun(request, run) && Reaches(cfg, run, t, s)
    ensures s.scoreRequests != [] ==>
              && s.buyers.tracker.pending == 0 && s.buyers.allDone == 1
              && (cfg.enforceKAnon ==> s.lookups.kAnon == Ended)
              && (cfg.fetchSignals ==> s.lookups.signalsTask == Ended && s.lookups.signals == Fetched(false))
              && (cfg.enforceKAnon || cfg.fetchSignals ==> s.lookups.join.pending == 0)
  {
    ReachedKeepsInv(cfg, request, run, t, |t.events|);
  }

  /** Nothing is left that could still happen on the server's side. */
  predicate Settled(s: State) {
    s.crashed || NothingLeft(s)
  }

  predicate NothingLeft(s: State) {
    && s.buyers.toSolicit == [] && s.buyers.toSkip == 0 && s.buyers.awaited == []
    && (s.buyers.tracker.tracked == 0 ==> s.buyers.allDone != 0)
    && s.lookups.kAnon !in {Scheduled, InFlight} && s.lookups.signalsTask !in {Scheduled, InFlight}
    && !s.scoring
  }

  lemma SettledIffNothingEnabled(cfg: Config, s: State)
    ensures Settled(s) <==> forall e :: Enabled(cfg, s, e) ==> e.ClientCancels?
  {
    if !Settled(s) {
      var filtered := FilteredInOrder(cfg.features, cfg.currencies, s.buyers.bids);
      var c := Choices(false, filtered, true, true, true);
      if s.buyers.toSolicit != [] {
        assert Enabled(cfg, s, SendNext(Sent, c));
      } else if s.buyers.toSkip > 0 {
        assert Enabled(cfg, s, SkipNext(c));
      } else if s.buyers.awaited != [] {
        assert Enabled(cfg, s, BidsArrive(0, None, c));
      } else if s.buyers.tracker.tracked == 0 && s.buyers.allDone == 0 {
        assert Enabled(cfg, s, NobodyToAsk(c));
      } else if s.lookups.kAnon == Scheduled {
        HashSetsExist(cfg.hashing, s.buyers.bids);
        assert Enabled(cfg, s, QueryKAnon(HashSetsFor(cfg.hashing, s.buyers.bids), true, c));
      } else if s.lookups.kAnon == InFlight {
        assert Enabled(cfg, s, KAnonAnswers(None, c));
      } else if s.lookups.signalsTask == Scheduled {
        assert Enabled(cfg, s, FetchSignals(Called));
      } else if s.lookups.signalsTask == InFlight {
        assert Enabled(cfg, s, SignalsArrive(FetchFailed, c));
      } else {
        assert Enabled(cfg, s, ScoresArrive(Response, c));
      }
    }
  }

  lemma SettledMeans(cfg: Config, run: Run, s: State)
    requires Orphans(run) >= 0 && Inv(cfg, run, s) && Settled(s)
    ensures |s.finishes| == One(Orphans(run) == 0 && s.lookups.signalsTask != Lost && !s.crashed)
  {
    if Orphans(run) > 0 {
      assert Collecting(cfg, s);
    } else if s.lookups.signalsTask == Lost {
      assert Joining(cfg, s);
    }
  }

  // ---------- when the signals call gets lost, or its answer ends the process ----------

  /** With version 2 the request cannot be created, or the call fails: the code only logs it and completes no task. */
  predicate LosesSignals(cfg: Config, s: State, e: Event) {
    e.FetchSignals? && e.call in {RequestNotCreated, CallFails} && !IsCancelled(cfg, s)
  }

  /** With version 2 the answer does not convert: the code reads the conversion's result without asking for it. */
  predicate CrashesOnSignals(cfg: Config, s: State, e: Event) {
    cfg.useKvV2 && e.SignalsArrive? && e.answered == NotConverted && !IsCancelled(cfg, s)
  }

  ghost predicate LostSignals(cfg: Config, t: Trace, k: nat)
    requires k <= |t.events| < |t.states|
  {
    exists j :: 0 <= j < k && LosesSignals(cfg, t.states[j], t.events[j])
  }

  ghost predicate CrashedOnSignals(cfg: Config, t: Trace, k: nat)
    requires k <= |t.events| < |t.states|
  {
    exists j :: 0 <= j < k && CrashesOnSignals(cfg, t.states[j], t.events[j])
  }

  lemma ScoreAdsFrame(cfg: Config, s: State, c: Choices)
    ensures ScoreAds(cfg, s, c).buyers == s.buyers && ScoreAds(cfg, s, c).lookups == s.lookups
    ensures ScoreAds(cfg, s, c).crashed == s.crashed
  {
  }

  lemma SignalsDoneFrame(cfg: Config, s: State, c: Choices)
    ensures OnFetchScoringSignalsDone(cfg, s, c).buyers == s.buyers
    ensures OnFetchScoringSignalsDone(cfg, s, c).lookups == s.lookups
    ensures OnFetchScoringSignalsDone(cfg, s, c).crashed == s.crashed
  {
    ScoreAdsFrame(cfg, s, c);
  }

  /** The step neither loses the signals task nor ends the process. */
  predicate Harmless(s: State, next: State) {
    next.lookups.signalsTask != Lost && next.crashed == s.crashed
  }

  lemma JoinKeepsSignalsTask(cfg: Config, s: State, lookups: Lookups, status: T.TaskStatus, c: Choices)
    ensures JoinTaskCompleted(cfg, s, lookups, status, c).lookups.signalsTask == lookups.signalsTask
    ensures JoinTaskCompleted(cfg, s, lookups, status, c).crashed == s.crashed
  {
    SignalsDoneFrame(cfg, s.(lookups := lookups.(join := lookups.join.Completed(status))), c);
  }

  lemma AllBidsDoneIsHarmless(cfg: Config, s: State, any: bool, c: Choices)
    requires s.lookups.signalsTask == Idle
    ensures Harmless(s, OnAllBidsDone(cfg, s, any, c))
  {
    var done := s.(buyers := s.buyers.(allDone := s.buyers.allDone + 1));
    var filtered := done.(buyers := done.buyers.(bids := c.filtered));
    var next := OnAllBidsDone(cfg, s, any, c);
    if cfg.enableCancellation && (s.clientCancelled || c.lateCancel) {
      assert next == FinishWithStatus(done, Cancelled);
    } else if s.buyers.bids == map[] {
      assert next == if any then OnScoreAdsDone(done, Response, false, c) else FinishWithStatus(done, Internal);
    } else if c.filtered == map[] {
      assert next == FinishWithStatus(filtered, InvalidArgument);
    } else if cfg.fetchSignals || cfg.enforceKAnon {
      assert next == filtered.(lookups := Started(cfg, s.lookups));
    } else {
      assert next == ScoreAds(cfg, filtered, c);
      ScoreAdsFrame(cfg, filtered, c);
    }
  }

  lemma BidTaskIsHarmless(cfg: Config, s: State, buyers: Buyers, status: T.TaskStatus, c: Choices)
    requires s.lookups.signalsTask == Idle
    ensures Harmless(s, BidTaskCompleted(cfg, s, buyers, status, c))
  {
    var next := s.(buyers := buyers.(tracker := buyers.tracker.Completed(status)));
    AllBidsDoneIsHarmless(cfg, next, next.buyers.tracker.AnyTaskSuccessfullyCompleted(), c);
  }

  lemma SendIsHarmless(cfg: Config, s: State, outcome: SendOutcome, c: Choices)
    requires s.lookups.signalsTask == Idle && s.buyers.toSolicit != []
    ensures Harmless(s, FetchBid(cfg, s, outcome, c))
  {
    var taken := s.buyers.(toSolicit := s.buyers.toSolicit[1..]);
    if IsCancelled(cfg, s) {
      BidTaskIsHarmless(cfg, s, taken, T.Cancelled, c);
    } else if outcome == NoBuyerClient {
      BidTaskIsHarmless(cfg, s, taken, T.Skipped, c);
    } else if outcome == SendFails {
      BidTaskIsHarmless(cfg, s, taken, T.Error, c);
    }
  }

  lemma ArrivalIsHarmless(cfg: Config, s: State, k: nat, response: Option<GetBidsResponse>, c: Choices)
    requires s.lookups.signalsTask == Idle && k < |s.buyers.awaited|
    ensures Harmless(s, OnFetchBidsDone(cfg, s, k, response, c))
  {
    var received := Received(cfg, s, k, response);
    BidTaskIsHarmless(cfg, s, received, FetchBidStatus(cfg, s, response), c);
  }

  lemma BuyerStepIsHarmless(cfg: Config, s: State, e: Event)
    requires Enabled(cfg, s, e) && s.lookups.signalsTask == Idle
    requires e.NobodyToAsk? || e.SendNext? || e.SkipNext? || e.BidsArrive?
    ensures Harmless(s, After(cfg, s, e))
  {
    if e.NobodyToAsk? {
      AllBidsDoneIsHarmless(cfg, s, true, e.c);
    } else if e.SendNext? {
      SendIsHarmless(cfg, s, e.outcome, e.c);
    } else if e.SkipNext? {
      var buyers := s.buyers.(toSkip := s.buyers.toSkip - 1);
      assert After(cfg, s, e) == BidTaskCompleted(cfg, s, buyers, T.Skipped, e.c);
      BidTaskIsHarmless(cfg, s, buyers, T.Skipped, e.c);
    } else {
      ArrivalIsHarmless(cfg, s, e.k, e.response, e.c);
    }
  }

  lemma KAnonStepKeepsSignalsTask(cfg: Config, s: State, e: Event)
    requires Enabled(cfg, s, e) && (e.QueryKAnon? || e.KAnonAnswers?)
    ensures After(cfg, s, e).lookups.signalsTask == s.lookups.signalsTask
    ensures After(cfg, s, e).crashed == s.crashed
  {
    if e.QueryKAnon? {
      var queried := s.lookups.(hashSets := e.sets, kAnon := Ended);
      JoinKeepsSignalsTask(cfg, s, queried, T.Skipped, e.c);
      var failed := queried.(statuses := StatusesFor(cfg.enforceKAnon, e.sets, {}));
      JoinKeepsSignalsTask(cfg, s, failed, T.Error, e.c);
    } else {
      var answered := s.lookups.(kAnon := Ended);
      JoinKeepsSignalsTask(cfg, s, answered, T.Error, e.c);
      if e.known.Some? {
        var statuses := StatusesFor(cfg.enforceKAnon, s.lookups.hashSets, e.known.value);
        JoinKeepsSignalsTask(cfg, s, answered.(answer := e.known, statuses := statuses), T.Success, e.c);
      }
    }
  }

  lemma SignalsArrivalCrashesIff(cfg: Config, s: State, e: Event)
    requires Enabled(cfg, s, e) && e.SignalsArrive?
    ensures After(cfg, s, e).lookups.signalsTask != Lost
    ensures After(cfg, s, e).crashed <==> CrashesOnSignals(cfg, s, e)
  {
    var ended := s.lookups.(signalsTask := Ended);
    JoinKeepsSignalsTask(cfg, s, ended, T.Cancelled, e.c);
    JoinKeepsSignalsTask(cfg, s, ended.(signals := e.answered), T.Success, e.c);
  }

  lemma ScoresKeepLookups(cfg: Config, s: State, e: Event)
    requires Enabled(cfg, s, e) && e.ScoresArrive?
    ensures After(cfg, s, e).lookups == s.lookups && After(cfg, s, e).crashed == s.crashed
  {
  }

  /** Only such steps lose the task or end the process, and nothing brings either back. */
  lemma HarmfulStep(cfg: Config, run: Run, s: State, e: Event)
    requires Orphans(run) >= 0 && Inv(cfg, run, s) && Enabled(cfg, s, e)
    ensures After(cfg, s, e).lookups.signalsTask == Lost <==>
              s.lookups.signalsTask == Lost || LosesSignals(cfg, s, e)
    ensures After(cfg, s, e).crashed <==> s.crashed || CrashesOnSignals(cfg, s, e)
  {
    if e.NobodyToAsk? || e.SendNext? || e.SkipNext? || e.BidsArrive? {
      StillCollecting(cfg, run, s, e);
      BuyerStepIsHarmless(cfg, s, e);
    } else if e.QueryKAnon? || e.KAnonAnswers? {
      KAnonStepKeepsSignalsTask(cfg, s, e);
    } else if e.SignalsArrive? {
      SignalsArrivalCrashesIff(cfg, s, e);
    } else if e.ScoresArrive? {
      ScoresKeepLookups(cfg, s, e);
    }
  }

  ghost predicate HarmedAt(cfg: Config, t: Trace, k: nat)
    requires k < |t.events| && |t.events| < |t.states|
  {
    var s, next, e := t.states[k], t.states[k + 1], t.events[k];
    && (next.lookups.signalsTask == Lost <==> s.lookups.signalsTask == Lost || LosesSignals(cfg, s, e))
    && (next.crashed <==> s.crashed || CrashesOnSignals(cfg, s, e))
  }

  lemma HarmfulStepAt(cfg: Config, request: Request, run: Run, t: Trace, k: nat)
    requires IsRun(request, run) && IsTrace(cfg, run, t) && k < |t.events|
    ensures HarmedAt(cfg, t, k)
  {
    assert StepAt(cfg, t, k);
    OrphansAreNotNegative(request, run);
    ReachedKeepsInv(cfg, request, run, t, k);
    HarmfulStep(cfg, run, t.states[k], t.events[k]);
  }

  lemma {:induction false} HarmSoFar(cfg: Config, t: Trace, k: nat)
    requires k <= |t.events| < |t.states| && t.states[0].lookups.signalsTask == Idle && !t.states[0].crashed
    requires forall j: nat :: j < |t.events| ==> HarmedAt(cfg, t, j)
    ensures t.states[k].lookups.signalsTask == Lost <==> LostSignals(cfg, t, k)
    ensures t.states[k].crashed <==> CrashedOnSignals(cfg, t, k)
  {
    hide LosesSignals, CrashesOnSignals;
    if k > 0 {
      HarmSoFar(cfg, t, k - 1);
      assert HarmedAt(cfg, t, k - 1);
    }
  }

  /** The task is lost exactly in the runs that took one of the two branches, and the process aborts exactly in those
      that read an answer that does not convert. */
  lemma SignalsLostIff(cfg: Config, request: Request, run: Run, t: Trace, k: nat)
    requires IsRun(request, run) && IsTrace(cfg, run, t) && k <= |t.events|
    ensures t.states[k].lookups.signalsTask == Lost <==> LostSignals(cfg, t, k)
    ensures t.states[k].crashed <==> CrashedOnSignals(cfg, t, k)
  {
    forall j: nat | j < |t.events| ensures HarmedAt(cfg, t, j) {
      HarmfulStepAt(cfg, request, run, t, j);
    }
    HarmSoFar(cfg, t, k);
  }

  /** A settled run has finished, unless a cached buyer was dropped on a replay, or, while the client had not
      cancelled, the request for the signals could not be created or sent or their answer did not convert. */
  lemma SettledRunHasFinishedIff(cfg: Config, request: Request, run: Run, t: Trace, s: State)
    requires IsRun(request, run) && Reaches(cfg, run, t, s)
    requires Settled(s)
    ensures |s.finishes| ==
              if (request.invokedBuyers.Some? ==>
                    forall b :: b in request.invokedBuyers.value.nonChaffBuyerNames ==> b in request.buyerInputs) &&
                 !(exists k :: 0 <= k < |t.events| && LosesSignals(cfg, t.states[k], t.events[k])) &&
                 !(exists k :: 0 <= k < |t.events| && CrashesOnSignals(cfg, t.states[k], t.events[k]))
              then 1 else 0
  {
    OrphansAreNotNegative(request, run);
    ReachedKeepsInv(cfg, request, run, t, |t.events|);
    SettledMeans(cfg, run, s);
    SignalsLostIff(cfg, request, run, t, |t.events|);
  }

  /** Only version 2 of the key-value client can lose the signals call or end the process on its answer. */
  lemma SignalsLostOnlyWithV2(cfg: Config, request: Request, run: Run, t: Trace, k: nat)
    requires IsRun(request, run) && IsTrace(cfg, run, t) && !cfg.useKvV2 && k <= |t.events|
    ensures !LostSignals(cfg, t, k) && !CrashedOnSignals(cfg, t, k)
  {
    ReachedKeepsInv(cfg, request, run, t, k);
    SignalsLostIff(cfg, request, run, t, k);
  }

  // ---------- runs that end without an answer ----------

  /** Nothing is left to happen, and the RPC is not finished. */
  ghost predicate NeverFinishes(cfg: Config, request: Request, run: Run, t: Trace) {
    && request.Valid() && IsRun(request, run) && IsTrace(cfg, run, t)
    && Settled(t.states[|t.events|]) && t.states[|t.events|].finishes == []
  }

  ghost function Then(cfg: Config, t: Trace, e: Event): Trace
    requires |t.states| == |t.events| + 1 && Enabled(cfg, t.states[|t.events|], e)
  {
    Trace(t.states + [After(cfg, t.states[|t.events|], e)], t.events + [e])
  }

  lemma OneMoreStep(cfg: Config, run: Run, t: Trace, e: Event)
    requires IsTrace(cfg, run, t) && Enabled(cfg, t.states[|t.events|], e)
    ensures IsTrace(cfg, run, Then(cfg, t, e))
  {
    var next := Then(cfg, t, e);
    forall k: nat | k < |next.events| ensures StepAt(cfg, next, k) {
      assert k < |t.events| ==> StepAt(cfg, t, k);
    }
  }

  /** A dropped buyer: whatever the configuration, nothing ever happens in its run. */
  lemma DroppedBuyerNeverFinishes(cfg: Config)
    ensures exists t: Trace :: t.events == [] && NeverFinishes(cfg, DROPPED_BUYER_REQUEST, DROPPED_BUYER_RUN, t)
  {
    ReplayCanLoseATask(DROPPED_BUYER_RUN);
    var t := Trace([Initial(cfg, DROPPED_BUYER_RUN)], []);
    assert NeverFinishes(cfg, DROPPED_BUYER_REQUEST, DROPPED_BUYER_RUN, t);
  }

  const ONE_BUYER_REQUEST := Request(["buyer"], {"buyer"}, {"buyer"}, false, false, false, None, 1)

  const ONE_BUYER_RUN := Run(1, [BidRequest("buyer", false)], [BidRequest("buyer", false)], 0, None)

  const ONE_BID := GetBidsResponse([AdWithBid("group", 1.0, "", "ad", [], ReportingIds(None, None, None))], [])

  /** Version 2 of the key-value client, and no k-anonymity. */
  function V2Config(hashing: Hashing): Config {
    Config(Features(true, false), false, true, true, false, hashing, map[])
  }

  /** What the steps below choose; only the filtered bids matter. */
  const ONE_BUYER_CHOICES := Choices(false, map["buyer" := ONE_BID], true, true, true)

  const NO_BIDS_CHOICES := Choices(false, map[], true, true, true)

  const SENT := SendNext(Sent, NO_BIDS_CHOICES)

  const ARRIVED := BidsArrive(0, Some(ONE_BID), ONE_BUYER_CHOICES)

  lemma OneBuyerIsRun()
    ensures ONE_BUYER_REQUEST.Valid() && IsRun(ONE_BUYER_REQUEST, ONE_BUYER_RUN)
  {
    var request, run := ONE_BUYER_REQUEST, ONE_BUYER_RUN;
    assert request.configuredBuyers[1..] == [] && run.requests[1..] == [];
    assert request.RealBuyers() == ["buyer"];
    assert RealsOf(run.requests) == ["buyer"] && ChaffsOf(run.requests) == [];
  }

  /** One bid is in, and the signals are about to be asked for. */
  lemma SignalsAreDue(hashing: Hashing) returns (t: Trace)
    ensures IsTrace(V2Config(hashing), ONE_BUYER_RUN, t) && t.events == [SENT, ARRIVED]
    ensures var s := t.states[2];
      && s.buyers.toSolicit == [] && s.buyers.toSkip == 0 && s.buyers.awaited == [] && s.buyers.tracker.tracked == 1
      && s.lookups.kAnon == Idle && s.lookups.signalsTask == Scheduled
      && !s.scoring && s.finishes == [] && !s.crashed
  {
    var cfg, run := V2Config(hashing), ONE_BUYER_RUN;
    t := Trace([Initial(cfg, run)], []);
    assert Enabled(cfg, t.states[0], SENT);
    OneMoreStep(cfg, run, t, SENT);
    t := Then(cfg, t, SENT);
    assert t.states[1].buyers.awaited == ["buyer"];
    assert BidsKnown(cfg, t.states[1], ARRIVED) == map["buyer" := ONE_BID];
    assert Enabled(cfg, t.states[1], ARRIVED);
    OneMoreStep(cfg, run, t, ARRIVED);
    t := Then(cfg, t, ARRIVED);
  }

  /** A request for the signals that cannot be created or sent. */
  lemma LostSignalsNeverFinish(hashing: Hashing, call: SignalsCall)
    requires call in {RequestNotCreated, CallFails}
    ensures exists t: Trace :: t.events == [SENT, ARRIVED, FetchSignals(call)] &&
              NeverFinishes(V2Config(hashing), ONE_BUYER_REQUEST, ONE_BUYER_RUN, t)
  {
    var cfg, e := V2Config(hashing), FetchSignals(call);
    OneBuyerIsRun();
    var t := SignalsAreDue(hashing);
    OneMoreStep(cfg, ONE_BUYER_RUN, t, e);
    t := Then(cfg, t, e);
    assert NeverFinishes(cfg, ONE_BUYER_REQUEST, ONE_BUYER_RUN, t);
  }

  /** Signals that arrive and do not convert. */
  lemma UnconvertedSignalsNeverFinish(hashing: Hashing)
    ensures exists t: Trace ::
              t.events == [SENT, ARRIVED, FetchSignals(Called), SignalsArrive(NotConverted, ONE_BUYER_CHOICES)] &&
              NeverFinishes(V2Config(hashing), ONE_BUYER_REQUEST, ONE_BUYER_RUN, t)
  {
    var cfg, called, answered :=
      V2Config(hashing), FetchSignals(Called), SignalsArrive(NotConverted, ONE_BUYER_CHOICES);
    OneBuyerIsRun();
    var t := SignalsAreDue(hashing);
    OneMoreStep(cfg, ONE_BUYER_RUN, t, called);
    t := Then(cfg, t, called);
    OneMoreStep(cfg, ONE_BUYER_RUN, t, answered);
    t := Then(cfg, t, answered);
    assert NeverFinishes(cfg, ONE_BUYER_REQUEST, ONE_BUYER_RUN, t);
  }

  // ---------- no run goes on for ever ----------

  function TaskWork(task: Task): nat {
    if task == Scheduled then 3 else if task == InFlight then 2 else 0
  }

  /** What the server still has to do; an aborted process does nothing any more. */
  function Work(s: State): nat {
    if s.crashed then 0 else OpenWork(s)
  }

  function OpenWork(s: State): nat {
    2 * |s.buyers.toSolicit| + s.buyers.toSkip + |s.buyers.awaited| + (if s.buyers.allDone == 0 then 8 else 0) +
    TaskWork(s.lookups.kAnon) + TaskWork(s.lookups.signalsTask) + One(s.scoring)
  }

  lemma JoinWork(cfg: Config, s: State, lookups: Lookups, status: T.TaskStatus, c: Choices)
    requires !s.scoring && !s.crashed
    ensures Work(JoinTaskCompleted(cfg, s, lookups, status, c)) <= Work(s.(lookups := lookups)) + 1
  {
    var next := s.(lookups := lookups.(join := lookups.join.Completed(status)));
    SignalsDoneFrame(cfg, next, c);
  }

  lemma AllBidsDoneWork(cfg: Config, s: State, any: bool, c: Choices)
    requires Collecting(cfg, s)
    ensures Work(OnAllBidsDone(cfg, s, any, c)) < Work(s)
  {
    ScoreAdsFrame(cfg, s.(buyers := s.buyers.(allDone := 1, bids := c.filtered)), c);
  }

  lemma BidTaskWork(cfg: Config, s: State, buyers: Buyers, status: T.TaskStatus, c: Choices)
    requires Collecting(cfg, s) && buyers.allDone == 0
    ensures Work(BidTaskCompleted(cfg, s, buyers, status, c)) <= Work(s.(buyers := buyers))
  {
    var next := s.(buyers := buyers.(tracker := buyers.tracker.Completed(status)));
    if next.buyers.tracker.pending == 0 {
      AllBidsDoneWork(cfg, next, next.buyers.tracker.AnyTaskSuccessfullyCompleted(), c);
    }
  }

  lemma SendDoesWork(cfg: Config, s: State, outcome: SendOutcome, c: Choices)
    requires Collecting(cfg, s) && s.buyers.toSolicit != []
    ensures Work(FetchBid(cfg, s, outcome, c)) < Work(s)
  {
    var taken := s.buyers.(toSolicit := s.buyers.toSolicit[1..]);
    assert Work(s.(buyers := taken)) == Work(s) - 2;
    if IsCancelled(cfg, s) {
      BidTaskWork(cfg, s, taken, T.Cancelled, c);
    } else if outcome == NoBuyerClient {
      BidTaskWork(cfg, s, taken, T.Skipped, c);
    } else if outcome == SendFails {
      BidTaskWork(cfg, s, taken, T.Error, c);
    }
  }

  lemma SkipDoesWork(cfg: Config, s: State, c: Choices)
    requires Collecting(cfg, s) && s.buyers.toSkip > 0
    ensures Work(BidTaskCompleted(cfg, s, s.buyers.(toSkip := s.buyers.toSkip - 1), T.Skipped, c)) < Work(s)
  {
    BidTaskWork(cfg, s, s.buyers.(toSkip := s.buyers.toSkip - 1), T.Skipped, c);
  }

  lemma BidsArriveDoesWork(cfg: Config, s: State, k: nat, response: Option<GetBidsResponse>, c: Choices)
    requires Collecting(cfg, s) && k < |s.buyers.awaited|
    ensures Work(OnFetchBidsDone(cfg, s, k, response, c)) < Work(s)
  {
    var received := Received(cfg, s, k, response);
    assert Work(s.(buyers := received)) == Work(s) - 1;
    BidTaskWork(cfg, s, received, FetchBidStatus(cfg, s, response), c);
  }

  /** As long as a buyer's part is unfinished, the reactor is still collecting. */
  lemma StillCollecting(cfg: Config, run: Run, s: State, e: Event)
    requires Orphans(run) >= 0 && Inv(cfg, run, s) && Enabled(cfg, s, e)
    requires e.NobodyToAsk? || e.SendNext? || e.SkipNext? || e.BidsArrive?
    ensures Collecting(cfg, s)
  {
  }

  lemma BuyerStepsDoWork(cfg: Config, run: Run, s: State, e: Event)
    requires Orphans(run) >= 0 && Inv(cfg, run, s) && Enabled(cfg, s, e)
    requires e.NobodyToAsk? || e.SendNext? || e.SkipNext? || e.BidsArrive?
    ensures Work(After(cfg, s, e)) < Work(s)
  {
    StillCollecting(cfg, run, s, e);
    match e
    case NobodyToAsk(c) => AllBidsDoneWork(cfg, s, true, c);
    case SendNext(outcome, c) => SendDoesWork(cfg, s, outcome, c);
    case SkipNext(c) => SkipDoesWork(cfg, s, c);
    case BidsArrive(k, response, c) => BidsArriveDoesWork(cfg, s, k, response, c);
  }

  lemma QueryDoesWork(cfg: Config, s: State, sets: HashSets, lookupCallOk: bool, c: Choices)
    requires !s.scoring && !s.crashed && s.lookups.kAnon == Scheduled
    ensures Work(OnQueryKAnonHashes(cfg, s, sets, lookupCallOk, c)) < Work(s)
  {
    var queried := s.lookups.(hashSets := sets, kAnon := Ended);
    if sets == map[] || forall key :: key in sets ==> sets[key] == {} {
      JoinWork(cfg, s, queried, T.Skipped, c);
    } else if !lookupCallOk {
      JoinWork(cfg, s, queried.(statuses := StatusesFor(cfg.enforceKAnon, sets, {})), T.Error, c);
    }
  }

  lemma AnswerDoesWork(cfg: Config, s: State, known: Option<set<string>>, c: Choices)
    requires !s.scoring && !s.crashed && s.lookups.kAnon == InFlight
    ensures Work(OnKAnonAnswer(cfg, s, known, c)) < Work(s)
  {
    var answered := s.lookups.(kAnon := Ended);
    if known == None {
      JoinWork(cfg, s, answered, T.Error, c);
    } else {
      var statuses := StatusesFor(cfg.enforceKAnon, s.lookups.hashSets, known.value);
      JoinWork(cfg, s, answered.(answer := known, statuses := statuses), T.Success, c);
    }
  }

  lemma KAnonStepsDoWork(cfg: Config, run: Run, s: State, e: Event)
    requires Inv(cfg, run, s) && Enabled(cfg, s, e) && (e.QueryKAnon? || e.KAnonAnswers?)
    ensures Work(After(cfg, s, e)) < Work(s)
  {
    if e.QueryKAnon? {
      QueryDoesWork(cfg, s, e.sets, e.lookupCallOk, e.c);
    } else {
      AnswerDoesWork(cfg, s, e.known, e.c);
    }
  }

  lemma SignalsDoWork(cfg: Config, run: Run, s: State, result: Signals, c: Choices)
    requires Inv(cfg, run, s) && s.lookups.signalsTask == InFlight && !s.crashed
    ensures Work(OnSignals(cfg, s, result, c)) < Work(s)
  {
    var ended := s.lookups.(signalsTask := Ended);
    if !cfg.useKvV2 && IsCancelled(cfg, s) {
      JoinWork(cfg, s, ended, T.Cancelled, c);
    } else if !cfg.useKvV2 || (!IsCancelled(cfg, s) && result.Fetched?) {
      JoinWork(cfg, s, ended.(signals := result), T.Success, c);
    }
  }

  lemma FetchDoesWork(cfg: Config, s: State, call: SignalsCall)
    requires s.lookups.signalsTask == Scheduled && !s.crashed
    ensures Work(FetchScoringSignals(cfg, s, call)) < Work(s)
  {
  }

  lemma ScoresDoWork(cfg: Config, s: State, result: ScoreResult, c: Choices)
    requires s.scoring && !s.crashed
    ensures Work(OnScores(cfg, s, result, c)) < Work(s)
  {
  }

  lemma OtherStepsDoWork(cfg: Config, s: State, e: Event)
    requires Enabled(cfg, s, e) && (e.FetchSignals? || e.ScoresArrive?)
    ensures Work(After(cfg, s, e)) < Work(s)
  {
    if e.FetchSignals? {
      FetchDoesWork(cfg, s, e.call);
    } else {
      ScoresDoWork(cfg, s, e.scores, e.c);
    }
  }

  function ServerEvents(events: seq<Event>): nat {
    if events == [] then 0
    else ServerEvents(events[..|events| - 1]) + One(!events[|events| - 1].ClientCancels?)
  }

  lemma StepDoesWork(cfg: Config, run: Run, s: State, e: Event)
    requires Orphans(run) >= 0 && Inv(cfg, run, s) && Enabled(cfg, s, e) && !e.ClientCancels?
    ensures Work(After(cfg, s, e)) < Work(s)
  {
    if e.NobodyToAsk? || e.SendNext? || e.SkipNext? || e.BidsArrive? {
      BuyerStepsDoWork(cfg, run, s, e);
    } else if e.QueryKAnon? || e.KAnonAnswers? {
      KAnonStepsDoWork(cfg, run, s, e);
    } else if e.SignalsArrive? {
      SignalsDoWork(cfg, run, s, e.answered, e.c);
    } else {
      OtherStepsDoWork(cfg, s, e);
    }
  }

  /** A step of the server leaves it less to do; a cancellation changes nothing about that. */
  ghost predicate WorksAt(t: Trace, k: nat)
    requires k < |t.events| && |t.events| < |t.states|
  {
    Work(t.states[k + 1]) + One(!t.events[k].ClientCancels?) <= Work(t.states[k])
  }

  lemma StepWorksAt(cfg: Config, request: Request, run: Run, t: Trace, k: nat)
    requires IsRun(request, run) && IsTrace(cfg, run, t) && k < |t.events|
    ensures WorksAt(t, k)
  {
    assert StepAt(cfg, t, k);
    OrphansAreNotNegative(request, run);
    ReachedKeepsInv(cfg, request, run, t, k);
    if !t.events[k].ClientCancels? {
      StepDoesWork(cfg, run, t.states[k], t.events[k]);
    }
  }

  lemma {:induction false} WorkRunsOut(t: Trace, k: nat)
    requires k <= |t.events| < |t.states|
    requires forall j: nat :: j < |t.events| ==> WorksAt(t, j)
    ensures ServerEvents(t.events[..k]) + Work(t.states[k]) <= Work(t.states[0])
  {
    hide Work;
    if k > 0 {
      WorkRunsOut(t, k - 1);
      assert WorksAt(t, k - 1);
      assert t.events[..k][..k - 1] == t.events[..k - 1];
    }
  }

  /** However the events are ordered, only so many can happen: with the lemmas above, every run settles. */
  lemma RunsAreBounded(cfg: Config, request: Request, run: Run, t: Trace)
    requires IsRun(request, run) && IsTrace(cfg, run, t)
    ensures ServerEvents(t.events) <= 2 * |run.requests| + 8
  {
    forall k: nat | k < |t.events| ensures WorksAt(t, k) {
      StepWorksAt(cfg, request, run, t, k);
    }
    WorkRunsOut(t, |t.events|);
    OrphansAreNotNegative(request, run);
    assert t.events[..|t.events|] == t.events;
  }
}
