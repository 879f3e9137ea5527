/** When a SelectAd run that nobody cancels holds an auction, and the status with which a run ends. */
module SelectAdScoring {
  import opened Sequences
  import opened BidTypes
  import opened BuyerSelection
  import opened CurrencyFilter
  import opened KAnonHashes
  import opened SelectAdReactor
  import opened SelectAdProtocol
  import opened SelectAdKAnonymity
  import opened SelectAdBids
  import T = TaskTracker

  // ---------- runs that meet no cancellation ----------

  predicate BuyersEvent(e: Event) {
    e.NobodyToAsk? || e.SendNext? || e.SkipNext? || e.BidsArrive?
  }

  /** A cancellation that arrives during the step, where the step asks for one. */
  function CancelsLate(e: Event): bool {
    match e
    case ClientCancels => false
    case FetchSignals(_) => false
    case _ => e.c.lateCancel
  }

  /** A step taken while the client has cancelled, or is just cancelling. */
  predicate MeetsCancellation(cfg: Config, s: State, e: Event) {
    cfg.enableCancellation && !e.ClientCancels? && (s.clientCancelled || CancelsLate(e))
  }

  ghost predicate Uncancelled(cfg: Config, t: Trace, k: nat)
    requires k <= |t.events| < |t.states|
  {
    forall i :: 0 <= i < k ==> !MeetsCancellation(cfg, t.states[i], t.events[i])
  }

  lemma ScoreAdsKeepsClient(cfg: Config, s: State, c: Choices)
    ensures ScoreAds(cfg, s, c).clientCancelled == s.clientCancelled
    ensures OnFetchScoringSignalsDone(cfg, s, c).clientCancelled == s.clientCancelled
  {
    hide HasAdsToScore;
  }

  lemma JoinKeepsClient(cfg: Config, s: State, lookups: Lookups, status: T.TaskStatus, c: Choices)
    ensures JoinTaskCompleted(cfg, s, lookups, status, c).clientCancelled == s.clientCancelled
  {
    hide OnFetchScoringSignalsDone, ScoreAds;
    ScoreAdsKeepsClient(cfg, s.(lookups := lookups.(join := lookups.join.Completed(status))), c);
  }

  lemma BidTaskKeepsClient(cfg: Config, s: State, buyers: Buyers, status: T.TaskStatus, c: Choices)
    ensures BidTaskCompleted(cfg, s, buyers, status, c).clientCancelled == s.clientCancelled
  {
    hide OnAllBidsDone;
    var next := s.(buyers := buyers.(tracker := buyers.tracker.Completed(status)));
    AllBidsDoneKeepsClient(cfg, next, next.buyers.tracker.AnyTaskSuccessfullyCompleted(), c);
  }

  lemma AllBidsDoneKeepsClient(cfg: Config, s: State, any: bool, c: Choices)
    ensures OnAllBidsDone(cfg, s, any, c).clientCancelled == s.clientCancelled
  {
    hide ScoreAds;
    var done := s.(buyers := s.buyers.(allDone := s.buyers.allDone + 1));
    ScoreAdsKeepsClient(cfg, done.(buyers := done.buyers.(bids := c.filtered)), c);
  }

  lemma BuyerStepKeepsClient(cfg: Config, s: State, e: Event)
    requires Enabled(cfg, s, e) && BuyersEvent(e)
    ensures After(cfg, s, e).clientCancelled == s.clientCancelled
  {
    hide OnAllBidsDone, BidTaskCompleted, FiltersBids;
    match e
    case NobodyToAsk(c) => AllBidsDoneKeepsClient(cfg, s, true, c);
    case SendNext(outcome, c) =>
      if StatusOfStep(cfg, s, e).Some? {
        BidTaskKeepsClient(cfg, s, s.buyers.(toSolicit := s.buyers.toSolicit[1..]), StatusOfStep(cfg, s, e).value, c);
      }
    case SkipNext(c) => BidTaskKeepsClient(cfg, s, s.buyers.(toSkip := s.buyers.toSkip - 1), T.Skipped, c);
    case BidsArrive(k, response, c) =>
      BidTaskKeepsClient(cfg, s, Received(cfg, s, k, response), FetchBidStatus(cfg, s, response), c);
  }

  lemma LookupStepKeepsClient(cfg: Config, s: State, e: Event)
    requires Enabled(cfg, s, e) && (e.QueryKAnon? || e.KAnonAnswers? || e.SignalsArrive?)
    ensures After(cfg, s, e).clientCancelled == s.clientCancelled
  {
    hide JoinTaskCompleted;
    match e
    case QueryKAnon(sets, _, c) =>
      var queried := s.lookups.(hashSets := sets, kAnon := Ended);
      JoinKeepsClient(cfg, s, queried, T.Skipped, c);
      JoinKeepsClient(cfg, s, queried.(statuses := StatusesFor(cfg.enforceKAnon, sets, {})), T.Error, c);
    case KAnonAnswers(known, c) =>
      var answered := s.lookups.(kAnon := Ended);
      JoinKeepsClient(cfg, s, answered, T.Error, c);
      if known.Some? {
        var statuses := StatusesFor(cfg.enforceKAnon, s.lookups.hashSets, known.value);
        JoinKeepsClient(cfg, s, answered.(answer := known, statuses := statuses), T.Success, c);
      }
    case SignalsArrive(answered, c) =>
      var ended := s.lookups.(signalsTask := Ended);
      JoinKeepsClient(cfg, s, ended, T.Cancelled, c);
      JoinKeepsClient(cfg, s, ended.(signals := answered), T.Success, c);
  }

  lemma StepKeepsClient(cfg: Config, s: State, e: Event)
    requires Enabled(cfg, s, e)
    ensures After(cfg, s, e).clientCancelled <==> s.clientCancelled || e.ClientCancels?
  {
    if BuyersEvent(e) {
      BuyerStepKeepsClient(cfg, s, e);
    } else if e.QueryKAnon? || e.KAnonAnswers? || e.SignalsArrive? {
      LookupStepKeepsClient(cfg, s, e);
    }
  }

  /** The client has cancelled exactly once it has said so. */
  lemma {:induction false} ClientCancelledIff(cfg: Config, run: Run, t: Trace, k: nat)
    requires IsTrace(cfg, run, t) && k <= |t.events|
    ensures t.states[k].clientCancelled <==> exists i :: 0 <= i < k && t.events[i].ClientCancels?
    ensures Enabled(cfg, t.states[k], ClientCancels)
  {
    hide CanHappen, After;
    if k > 0 {
      ClientCancelledIff(cfg, run, t, k - 1);
      assert StepAt(cfg, t, k - 1);
      StepKeepsClient(cfg, t.states[k - 1], t.events[k - 1]);
    }
  }

  // ---------- whether the auction is held ----------

  /** Every lookup that is due has completed its task. */
  predicate JoinOver(cfg: Config, s: State) {
    cfg.enforceKAnon || cfg.fetchSignals ==> s.lookups.join.pending == 0
  }

  /** There is a bid to score, and signals to score it with. */
  ghost predicate WorthScoring(cfg: Config, s: State) {
    && (exists buyer :: buyer in s.buyers.bids && HasBids(cfg.ScoredTypes(), s.buyers.bids[buyer]))
    && (cfg.fetchSignals ==> s.lookups.signals == Fetched(false))
  }

  /** Once the bids are done: without lookups that are due there are no bids left, otherwise an auction was called for
      exactly if the lookups are over and it is worth it. */
  ghost predicate HeldIfDue(cfg: Config, s: State) {
    if s.buyers.allDone == 0 then s.scoreRequests == []
    else if (cfg.enforceKAnon || cfg.fetchSignals) && AtRest(cfg, s.lookups) then
      s.scoreRequests == [] && s.buyers.bids == map[]
    else s.scoreRequests != [] <==> JoinOver(cfg, s) && WorthScoring(cfg, s)
  }

  lemma ScoreAdsHolds(cfg: Config, s: State, c: Choices)
    requires s.scoreRequests == [] && (cfg.enableCancellation ==> !s.clientCancelled && !c.lateCancel)
    requires cfg.fetchSignals ==> s.lookups.signals == Fetched(false)
    ensures ScoreAds(cfg, s, c).scoreRequests != [] <==> WorthScoring(cfg, s)
  {
  }

  lemma JoinHolds(cfg: Config, s: State, lookups: Lookups, status: T.TaskStatus, c: Choices)
    requires s.buyers.allDone == 1 && s.scoreRequests == []
    requires cfg.enforceKAnon || cfg.fetchSignals
    requires Looking(cfg, lookups, lookups.join.pending - 1)
    requires cfg.enableCancellation ==> !s.clientCancelled && !c.lateCancel
    ensures HeldIfDue(cfg, JoinTaskCompleted(cfg, s, lookups, status, c))
  {
    var next := s.(lookups := lookups.(join := lookups.join.Completed(status)));
    SignalsDoneFrame(cfg, next, c);
    hide ScoreAds;
    if next.lookups.join.pending == 0 && (cfg.fetchSignals ==> next.lookups.signals == Fetched(false)) {
      ScoreAdsHolds(cfg, next, c);
    }
  }

  /** The bids as they are known, and once they are done as they were filtered. */
  ghost predicate FilteredSoFar(cfg: Config, s: State, before: BuyerBidsResponseMap) {
    if s.buyers.allDone == 0 then before == s.buyers.bids
    else Filtered(cfg.features, cfg.currencies, before, s.buyers.bids)
  }

  lemma AllBidsDoneHolds(cfg: Config, s: State, any: bool, c: Choices)
    requires Collecting(cfg, s) && (cfg.enableCancellation ==> !s.clientCancelled && !c.lateCancel)
    requires Filtered(cfg.features, cfg.currencies, s.buyers.bids, c.filtered)
    ensures HeldIfDue(cfg, OnAllBidsDone(cfg, s, any, c))
    ensures OnAllBidsDone(cfg, s, any, c).buyers.allDone == 1
    ensures FilteredSoFar(cfg, OnAllBidsDone(cfg, s, any, c), s.buyers.bids)
  {
    hide ScoreAds, HasBids, Expected, SameBids;
    var done := s.(buyers := s.buyers.(allDone := 1));
    var filtered := done.(buyers := done.buyers.(bids := c.filtered));
    var next := OnAllBidsDone(cfg, s, any, c);
    if s.buyers.bids == map[] {
      assert next == if any then OnScoreAdsDone(done, Response, false, c) else FinishWithStatus(done, Internal);
    } else if c.filtered == map[] {
      assert next == FinishWithStatus(filtered, InvalidArgument);
    } else if cfg.fetchSignals || cfg.enforceKAnon {
      assert next == filtered.(lookups := Started(cfg, s.lookups));
    } else {
      assert next == ScoreAds(cfg, filtered, c);
      ScoreAdsHolds(cfg, filtered, c);
      ScoreAdsFrame(cfg, filtered, c);
    }
  }

  lemma BidTaskHolds(cfg: Config, s: State, buyers: Buyers, status: T.TaskStatus, c: Choices)
    requires Collecting(cfg, s) && buyers.allDone == 0
    requires cfg.enableCancellation ==> !s.clientCancelled && !c.lateCancel
    requires Filtered(cfg.features, cfg.currencies, buyers.bids, c.filtered)
    ensures HeldIfDue(cfg, BidTaskCompleted(cfg, s, buyers, status, c))
    ensures FilteredSoFar(cfg, BidTaskCompleted(cfg, s, buyers, status, c), buyers.bids)
  {
    hide Filtered, WorthScoring, JoinOver, OnAllBidsDone;
    var next := s.(buyers := buyers.(tracker := buyers.tracker.Completed(status)));
    if next.buyers.tracker.pending == 0 {
      AllBidsDoneHolds(cfg, next, next.buyers.tracker.AnyTaskSuccessfullyCompleted(), c);
    }
  }

  lemma BuyerStepHolds(cfg: Config, s: State, e: Event)
    requires Collecting(cfg, s) && Enabled(cfg, s, e) && !MeetsCancellation(cfg, s, e)
    requires BuyersEvent(e)
    ensures HeldIfDue(cfg, After(cfg, s, e)) && FilteredSoFar(cfg, After(cfg, s, e), BidsKnown(cfg, s, e))
  {
    hide Filtered, WorthScoring, JoinOver, OnAllBidsDone, BidTaskCompleted, AtRest;
    assert FiltersBids(cfg, s, e, e.c);
    match e
    case NobodyToAsk(c) => AllBidsDoneHolds(cfg, s, true, c);
    case SendNext(outcome, c) =>
      if StatusOfStep(cfg, s, e).Some? {
        BidTaskHolds(cfg, s, s.buyers.(toSolicit := s.buyers.toSolicit[1..]), StatusOfStep(cfg, s, e).value, c);
      }
    case SkipNext(c) => BidTaskHolds(cfg, s, s.buyers.(toSkip := s.buyers.toSkip - 1), T.Skipped, c);
    case BidsArrive(k, response, c) =>
      BidTaskHolds(cfg, s, Received(cfg, s, k, response), FetchBidStatus(cfg, s, response), c);
  }

  lemma KAnonStepHolds(cfg: Config, run: Run, s: State, e: Event)
    requires Inv(cfg, run, s) && HeldIfDue(cfg, s) && Enabled(cfg, s, e) && !MeetsCancellation(cfg, s, e)
    requires e.QueryKAnon? || e.KAnonAnswers?
    ensures HeldIfDue(cfg, After(cfg, s, e))
  {
    hide WorthScoring, JoinTaskCompleted;
    if e.QueryKAnon? {
      var queried := s.lookups.(hashSets := e.sets, kAnon := Ended);
      JoinHolds(cfg, s, queried, T.Skipped, e.c);
      JoinHolds(cfg, s, queried.(statuses := StatusesFor(cfg.enforceKAnon, e.sets, {})), T.Error, e.c);
    } else {
      var answered := s.lookups.(kAnon := Ended);
      if e.known == None {
        JoinHolds(cfg, s, answered, T.Error, e.c);
      } else {
        var statuses := StatusesFor(cfg.enforceKAnon, s.lookups.hashSets, e.known.value);
        JoinHolds(cfg, s, answered.(answer := e.known, statuses := statuses), T.Success, e.c);
      }
    }
  }

  lemma SignalsStepHolds(cfg: Config, run: Run, s: State, e: Event)
    requires Inv(cfg, run, s) && HeldIfDue(cfg, s) && Enabled(cfg, s, e) && !MeetsCancellation(cfg, s, e)
    requires e.SignalsArrive?
    ensures HeldIfDue(cfg, After(cfg, s, e))
  {
    hide WorthScoring, JoinTaskCompleted;
    if !cfg.useKvV2 || e.answered.Fetched? {
      JoinHolds(cfg, s, s.lookups.(signalsTask := Ended, signals := e.answered), T.Success, e.c);
    }
  }

  /** The other steps complete no task. */
  lemma QuietStepHolds(cfg: Config, run: Run, s: State, e: Event)
    requires Inv(cfg, run, s) && HeldIfDue(cfg, s) && Enabled(cfg, s, e)
    requires e.ClientCancels? || e.FetchSignals? || e.ScoresArrive?
    ensures HeldIfDue(cfg, After(cfg, s, e))
  {
    hide HasBids;
  }

  lemma StepHolds(cfg: Config, run: Run, s: State, e: Event, before: BuyerBidsResponseMap)
    requires Orphans(run) >= 0 && Inv(cfg, run, s) && HeldIfDue(cfg, s) && FilteredSoFar(cfg, s, before)
    requires Enabled(cfg, s, e) && !MeetsCancellation(cfg, s, e)
    ensures var next := After(cfg, s, e);
      && HeldIfDue(cfg, next)
      && FilteredSoFar(cfg, next,
           if BuyersEvent(e) then BidsKnown(cfg, s, e) else before)
  {
    hide WorthScoring, JoinOver, AtRest, Filtered, ScoreAds, JoinTaskCompleted, BidTaskCompleted, OnAllBidsDone;
    if BuyersEvent(e) {
      StillCollecting(cfg, run, s, e);
      BuyerStepHolds(cfg, s, e);
    } else {
      OtherStepBids(cfg, run, s, e);
      if e.QueryKAnon? || e.KAnonAnswers? {
        KAnonStepHolds(cfg, run, s, e);
      } else if e.SignalsArrive? {
        SignalsStepHolds(cfg, run, s, e);
      } else {
        QuietStepHolds(cfg, run, s, e);
      }
    }
  }

  // ---------- the signals ----------

  /** The event brings signals, and they are not empty. */
  predicate BringsSignals(e: Event) {
    e.SignalsArrive? && e.answered == Fetched(false)
  }

  ghost predicate BroughtSignals(t: Trace, k: nat)
    requires k <= |t.events|
  {
    exists i :: 0 <= i < k && BringsSignals(t.events[i])
  }

  /** Signals are kept only when their task has ended. */
  ghost predicate SignalsKept(s: State) {
    s.lookups.signalsTask != Ended ==> s.lookups.signals == NeverSet
  }

  ghost predicate SameSignals(l: Lookups, next: Lookups) {
    next.signals == l.signals && (next.signalsTask == Ended <==> l.signalsTask == Ended)
  }

  lemma BuyerStepKeepsSignals(cfg: Config, s: State, e: Event)
    requires Collecting(cfg, s) && Enabled(cfg, s, e)
    requires BuyersEvent(e)
    ensures SameSignals(s.lookups, After(cfg, s, e).lookups)
  {
    hide OnAllBidsDone, FiltersBids;
    match e
    case NobodyToAsk(c) => AllBidsDoneFrame(cfg, s, true, c);
    case SendNext(outcome, c) =>
      if StatusOfStep(cfg, s, e).Some? {
        BidTaskKeepsSignals(cfg, s, s.buyers.(toSolicit := s.buyers.toSolicit[1..]), StatusOfStep(cfg, s, e).value, c);
      }
    case SkipNext(c) => BidTaskKeepsSignals(cfg, s, s.buyers.(toSkip := s.buyers.toSkip - 1), T.Skipped, c);
    case BidsArrive(k, response, c) =>
      BidTaskKeepsSignals(cfg, s, Received(cfg, s, k, response), FetchBidStatus(cfg, s, response), c);
  }

  lemma BidTaskKeepsSignals(cfg: Config, s: State, buyers: Buyers, status: T.TaskStatus, c: Choices)
    requires Collecting(cfg, s)
    ensures SameSignals(s.lookups, BidTaskCompleted(cfg, s, buyers, status, c).lookups)
  {
    hide OnAllBidsDone;
    var next := s.(buyers := buyers.(tracker := buyers.tracker.Completed(status)));
    AllBidsDoneFrame(cfg, next, next.buyers.tracker.AnyTaskSuccessfullyCompleted(), c);
  }

  lemma KAnonStepKeepsSignals(cfg: Config, s: State, e: Event)
    requires Enabled(cfg, s, e) && (e.QueryKAnon? || e.KAnonAnswers?)
    ensures SameSignals(s.lookups, After(cfg, s, e).lookups)
  {
    hide OnFetchScoringSignalsDone;
    if e.QueryKAnon? {
      var queried := s.lookups.(hashSets := e.sets, kAnon := Ended);
      JoinKeepsSignals(cfg, s, queried, T.Skipped, e.c);
      JoinKeepsSignals(cfg, s, queried.(statuses := StatusesFor(cfg.enforceKAnon, e.sets, {})), T.Error, e.c);
    } else {
      var answered := s.lookups.(kAnon := Ended);
      JoinKeepsSignals(cfg, s, answered, T.Error, e.c);
      if e.known.Some? {
        var statuses := StatusesFor(cfg.enforceKAnon, s.lookups.hashSets, e.known.value);
        JoinKeepsSignals(cfg, s, answered.(answer := e.known, statuses := statuses), T.Success, e.c);
      }
    }
  }

  lemma JoinKeepsSignals(cfg: Config, s: State, lookups: Lookups, status: T.TaskStatus, c: Choices)
    ensures SameSignals(lookups, JoinTaskCompleted(cfg, s, lookups, status, c).lookups)
  {
    SignalsDoneFrame(cfg, s.(lookups := lookups.(join := lookups.join.Completed(status))), c);
  }

  lemma SignalsStepSets(cfg: Config, s: State, e: Event)
    requires SignalsKept(s) && Enabled(cfg, s, e) && e.SignalsArrive? && !MeetsCancellation(cfg, s, e)
    ensures SignalsKept(After(cfg, s, e))
    ensures After(cfg, s, e).lookups.signals == Fetched(false) <==> BringsSignals(e)
  {
    hide OnFetchScoringSignalsDone;
    if !cfg.useKvV2 || e.answered.Fetched? {
      JoinKeepsSignals(cfg, s, s.lookups.(signalsTask := Ended, signals := e.answered), T.Success, e.c);
    }
  }

  lemma StepSetsSignals(cfg: Config, run: Run, s: State, e: Event)
    requires Orphans(run) >= 0 && Inv(cfg, run, s) && SignalsKept(s)
    requires Enabled(cfg, s, e) && !MeetsCancellation(cfg, s, e)
    ensures SignalsKept(After(cfg, s, e))
    ensures After(cfg, s, e).lookups.signals == Fetched(false) <==>
              s.lookups.signals == Fetched(false) || BringsSignals(e)
  {
    if BuyersEvent(e) {
      StillCollecting(cfg, run, s, e);
      BuyerStepKeepsSignals(cfg, s, e);
    } else if e.QueryKAnon? || e.KAnonAnswers? {
      KAnonStepKeepsSignals(cfg, s, e);
    } else if e.SignalsArrive? {
      SignalsStepSets(cfg, s, e);
    } else if e.ScoresArrive? {
      ScoresKeepLookups(cfg, s, e);
    }
  }

  // ---------- along a run ----------

  /** After k events: the bids are those taken, filtered once they are done; the signals are those brought; and the
      auction has been called for exactly if it is due. */
  ghost predicate ScoringAt(cfg: Config, t: Trace, k: nat, before: BuyerBidsResponseMap)
    requires k <= |t.events| < |t.states|
  {
    && HoldsTaken(cfg, t, k, before) && FilteredSoFar(cfg, t.states[k], before)
    && SignalsKept(t.states[k]) && (t.states[k].lookups.signals == Fetched(false) <==> BroughtSignals(t, k))
    && HeldIfDue(cfg, t.states[k])
  }

  lemma NoScoringAtStart(cfg: Config, run: Run, t: Trace)
    requires IsTrace(cfg, run, t)
    ensures ScoringAt(cfg, t, 0, map[])
  {
  }

  lemma ScoringStepAt(cfg: Config, request: Request, run: Run, t: Trace, k: nat, before: BuyerBidsResponseMap)
    returns (after: BuyerBidsResponseMap)
    requires IsRun(request, run) && IsTrace(cfg, run, t) && k < |t.events| && ScoringAt(cfg, t, k, before)
    requires !MeetsCancellation(cfg, t.states[k], t.events[k])
    ensures ScoringAt(cfg, t, k + 1, after)
  {
    var s, e := t.states[k], t.events[k];
    assert StepAt(cfg, t, k);
    OrphansAreNotNegative(request, run);
    ReachedKeepsInv(cfg, request, run, t, k);
    hide Inv, Enabled, After, HeldIfDue, FilteredSoFar, SignalsKept, MeetsCancellation, IsRun;
    StepHolds(cfg, run, s, e, before);
    StepSetsSignals(cfg, run, s, e);
    if BuyersEvent(e) {
      after := BidsKnown(cfg, s, e);
      StillCollecting(cfg, run, s, e);
      CollectingHolds(cfg, s, before);
      KnownTaken(cfg, t, k);
    } else {
      after := before;
      NothingTaken(cfg, t, k, before);
    }
  }

  lemma CollectingHolds(cfg: Config, s: State, before: BuyerBidsResponseMap)
    requires Collecting(cfg, s) && FilteredSoFar(cfg, s, before)
    ensures before == s.buyers.bids
  {
  }

  lemma {:induction false} ScoringSoFar(cfg: Config, request: Request, run: Run, t: Trace, k: nat)
    returns (before: BuyerBidsResponseMap)
    requires IsRun(request, run) && IsTrace(cfg, run, t) && k <= |t.events| && Uncancelled(cfg, t, k)
    ensures ScoringAt(cfg, t, k, before)
  {
    hide ScoringAt, IsRun, StepAt, MeetsCancellation;
    if k == 0 {
      before := map[];
      NoScoringAtStart(cfg, run, t);
    } else {
      before := ScoringSoFar(cfg, request, run, t, k - 1);
      before := ScoringStepAt(cfg, request, run, t, k - 1, before);
    }
  }

  /** A buyer whose answer counts has made a bid that would be scored, in the buyer's currency or in none. */
  ghost predicate SomethingToScore(cfg: Config, t: Trace)
    requires |t.events| < |t.states|
  {
    exists buyer, response ::
      Taken(cfg, t, |t.events|, buyer, response) && HasOwnBids(cfg.ScoredTypes(), cfg.currencies, buyer, response)
  }

  /** What is left to score of one buyer's bids. */
  lemma OwnBidsAreScored(cfg: Config, before: BuyerBidsResponseMap, bids: BuyerBidsResponseMap, buyer: string)
    requires Filtered(cfg.features, cfg.currencies, before, bids)
    ensures buyer in bids && HasBids(cfg.ScoredTypes(), bids[buyer]) <==>
              buyer in before && HasOwnBids(cfg.ScoredTypes(), cfg.currencies, buyer, before[buyer])
  {
    FilteredMeans(cfg.features, cfg.currencies, before, bids, buyer);
    if buyer in bids {
      OwnBidsLeft(cfg.ScoredTypes(), cfg.currencies, buyer, before[buyer], bids[buyer]);
    }
  }

  lemma BidsToScore(cfg: Config, t: Trace, before: BuyerBidsResponseMap, bids: BuyerBidsResponseMap)
    requires |t.events| < |t.states| && HoldsTaken(cfg, t, |t.events|, before)
    requires Filtered(cfg.features, cfg.currencies, before, bids)
    ensures (exists buyer :: buyer in bids && HasBids(cfg.ScoredTypes(), bids[buyer])) <==> SomethingToScore(cfg, t)
  {
    hide Filtered, HasBids, HasOwnBids, Taken;
    if buyer :| buyer in bids && HasBids(cfg.ScoredTypes(), bids[buyer]) {
      OwnBidsAreScored(cfg, before, bids, buyer);
      assert Taken(cfg, t, |t.events|, buyer, before[buyer]);
    }
    if buyer, response :|
      Taken(cfg, t, |t.events|, buyer, response) && HasOwnBids(cfg.ScoredTypes(), cfg.currencies, buyer, response)
    {
      OwnBidsAreScored(cfg, before, bids, buyer);
    }
  }

  /** A settled state in which the signals are there, or are not due, has no lookup left; and it has no lookup left that
      crashed. */
  lemma SettledJoinIsOver(cfg: Config, run: Run, s: State)
    requires Orphans(run) == 0 && Inv(cfg, run, s) && Settled(s) && SignalsKept(s) && HeldIfDue(cfg, s)
    ensures s.buyers.allDone == 1
    ensures WorthScoring(cfg, s) ==> JoinOver(cfg, s)
  {
  }

  /** In a settled run that met no cancellation there was an auction exactly if no cached buyer was dropped on a replay,
      some answer that counts holds a bid of a scored type in its buyer's currency or in none, and the signals, where
      they are fetched, came and were not empty. */
  lemma AuctionIsHeldIff(cfg: Config, request: Request, run: Run, t: Trace, s: State)
    requires IsRun(request, run) && Reaches(cfg, run, t, s)
    requires Settled(s) && Uncancelled(cfg, t, |t.events|)
    ensures |s.scoreRequests| ==
              if (request.invokedBuyers.Some? ==>
                    forall b :: b in request.invokedBuyers.value.nonChaffBuyerNames ==> b in request.buyerInputs) &&
                 SomethingToScore(cfg, t) &&
                 (cfg.fetchSignals ==> exists i :: 0 <= i < |t.events| && BringsSignals(t.events[i]))
              then 1 else 0
  {
    OrphansAreNotNegative(request, run);
    ReachedKeepsInv(cfg, request, run, t, |t.events|);
    InvMeans(cfg, run, s);
    var before := ScoringSoFar(cfg, request, run, t, |t.events|);
    if Orphans(run) > 0 {
      assert Collecting(cfg, s);
    } else {
      SettledJoinIsOver(cfg, run, s);
      BidsToScore(cfg, t, before, s.buyers.bids);
    }
  }

  // ---------- the status a run ends with ----------

  /** The auction server's answer, passed on: its INTERNAL errors are answered with chaff. */
  function ScoredStatus(scores: ScoreResult, c: Choices): Status {
    match scores
    case Failed(status) => if status == Internal then ChaffStatus(c) else status
    case Response => ChaffStatus(c)
  }

  /** What a step that leads to next finishes the RPC with while the client has not cancelled, where known are the bids
      with the step's own answer. */
  function EndStatus(cfg: Config, known: BuyerBidsResponseMap, e: Event, next: State): Status {
    if e.ScoresArrive? then ScoredStatus(e.scores, e.c)
    else if e.ClientCancels? || e.FetchSignals? then Internal
    else if BuyersEvent(e) && known == map[] then
      if next.buyers.tracker.tracked > 0 && !next.buyers.tracker.AnyTaskSuccessfullyCompleted() then Internal
      else ChaffStatus(e.c)
    else if BuyersEvent(e) && next.buyers.bids == map[] then InvalidArgument
    else if next.scoreRequests != [] then Internal
    else if cfg.fetchSignals && !next.lookups.signals.Fetched? then InvalidArgument
    else ChaffStatus(e.c)
  }

  /** And after the client has: a lookup that ends the join is still judged by its signals first. */
  function CancelledStatus(cfg: Config, e: Event, next: State): Status {
    if !cfg.fetchSignals || !(e.QueryKAnon? || e.KAnonAnswers? || (e.SignalsArrive? && !cfg.useKvV2)) then Cancelled
    else match next.lookups.signals
      case Fetched(empty) => if empty then ChaffStatus(e.c) else Cancelled
      case _ => InvalidArgument
  }

  /** Either of the two, where the step finishes the RPC; and a step that calls the auction server leaves the RPC open
      exactly if the call succeeds. */
  ghost predicate EndsWell(cfg: Config, s: State, known: BuyerBidsResponseMap, e: Event, next: State) {
    && (next.finishes != [] ==>
          && (!MeetsCancellation(cfg, s, e) ==> next.finishes == [EndStatus(cfg, known, e, next)])
          && (IsCancelled(cfg, s) ==> next.finishes == [CancelledStatus(cfg, e, next)]))
    && (s.scoreRequests == [] && next.scoreRequests != [] ==> CallsScoring(e, next))
  }

  /** Scores are awaited exactly if the call to the auction server succeeded. */
  predicate CallsScoring(e: Event, next: State) {
    && (BuyersEvent(e) || e.QueryKAnon? || e.KAnonAnswers? || e.SignalsArrive?)
    && (next.scoring <==> e.c.scoreAdsCallOk) && (next.finishes == [] <==> e.c.scoreAdsCallOk)
  }

  lemma ScoreAdsStatus(cfg: Config, s: State, c: Choices)
    requires s.finishes == [] && s.scoreRequests == [] && !s.scoring
    ensures var next := ScoreAds(cfg, s, c);
      next.scoreRequests != [] ==>
        (next.scoring <==> c.scoreAdsCallOk) && (next.finishes == [] <==> c.scoreAdsCallOk)
    ensures var next := ScoreAds(cfg, s, c);
      next.finishes != [] ==>
        && (!(cfg.enableCancellation && (s.clientCancelled || c.lateCancel)) ==>
              next.finishes == [if next.scoreRequests != [] then Internal else ChaffStatus(c)])
        && (IsCancelled(cfg, s) ==> next.finishes == [Cancelled])
  {
    hide HasAdsToScore;
  }

  lemma SignalsDoneStatus(cfg: Config, s: State, c: Choices)
    requires s.finishes == [] && s.scoreRequests == [] && !s.scoring
    ensures var next := OnFetchScoringSignalsDone(cfg, s, c);
      next.scoreRequests != [] ==>
        (next.scoring <==> c.scoreAdsCallOk) && (next.finishes == [] <==> c.scoreAdsCallOk)
    ensures var next := OnFetchScoringSignalsDone(cfg, s, c);
      next.finishes != [] ==>
        && (!(cfg.enableCancellation && (s.clientCancelled || c.lateCancel)) ==>
              next.finishes ==
                [if next.scoreRequests != [] then Internal
                 else if cfg.fetchSignals && !s.lookups.signals.Fetched? then InvalidArgument
                 else ChaffStatus(c)])
        && (IsCancelled(cfg, s) ==>
              next.finishes ==
                [if !cfg.fetchSignals || s.lookups.signals == Fetched(false) then Cancelled
                 else if s.lookups.signals.Fetched? then ChaffStatus(c)
                 else InvalidArgument])
  {
    hide ScoreAds;
    ScoreAdsStatus(cfg, s, c);
  }

  lemma JoinEnds(
    cfg: Config, s: State, known: BuyerBidsResponseMap, lookups: Lookups, status: T.TaskStatus, e: Event)
    requires s.finishes == [] && s.scoreRequests == [] && !s.scoring
    requires e.QueryKAnon? || e.KAnonAnswers? || (e.SignalsArrive? && (cfg.useKvV2 ==> !IsCancelled(cfg, s)))
    ensures EndsWell(cfg, s, known, e, JoinTaskCompleted(cfg, s, lookups, status, e.c))
  {
    hide OnFetchScoringSignalsDone;
    var next := s.(lookups := lookups.(join := lookups.join.Completed(status)));
    SignalsDoneStatus(cfg, next, e.c);
    SignalsDoneFrame(cfg, next, e.c);
  }

  lemma ScoreAdsEnds(cfg: Config, s: State, known: BuyerBidsResponseMap, e: Event)
    requires s.finishes == [] && s.scoreRequests == [] && !s.scoring && !cfg.fetchSignals
    requires BuyersEvent(e) && known != map[] && s.buyers.bids != map[]
    ensures EndsWell(cfg, s, known, e, ScoreAds(cfg, s, e.c))
  {
    ScoreAdsFrame(cfg, s, e.c);
  }

  lemma AllBidsDoneEnds(cfg: Config, s: State, any: bool, e: Event)
    requires Collecting(cfg, s) && BuyersEvent(e)
    requires any <==> s.buyers.tracker.tracked == 0 || s.buyers.tracker.AnyTaskSuccessfullyCompleted()
    ensures EndsWell(cfg, s, s.buyers.bids, e, OnAllBidsDone(cfg, s, any, e.c))
  {
    hide ScoreAds;
    var done := s.(buyers := s.buyers.(allDone := 1));
    var filtered := done.(buyers := done.buyers.(bids := e.c.filtered));
    var next := OnAllBidsDone(cfg, s, any, e.c);
    if cfg.enableCancellation && (s.clientCancelled || e.c.lateCancel) {
      assert next == FinishWithStatus(done, Cancelled);
    } else if s.buyers.bids == map[] {
      assert next == if any then OnScoreAdsDone(done, Response, false, e.c) else FinishWithStatus(done, Internal);
    } else if e.c.filtered == map[] {
      assert next == FinishWithStatus(filtered, InvalidArgument);
    } else if cfg.fetchSignals || cfg.enforceKAnon {
      assert next == filtered.(lookups := Started(cfg, s.lookups));
    } else {
      assert next == ScoreAds(cfg, filtered, e.c);
      ScoreAdsEnds(cfg, filtered, s.buyers.bids, e);
    }
  }

  lemma BidTaskEnds(cfg: Config, s: State, buyers: Buyers, status: T.TaskStatus, e: Event)
    requires Collecting(cfg, s) && buyers.allDone == 0 && buyers.tracker.tracked > 0 && BuyersEvent(e)
    ensures EndsWell(cfg, s, buyers.bids, e, BidTaskCompleted(cfg, s, buyers, status, e.c))
  {
    hide OnAllBidsDone, EndStatus, CancelledStatus;
    var next := s.(buyers := buyers.(tracker := buyers.tracker.Completed(status)));
    if next.buyers.tracker.pending == 0 {
      AllBidsDoneEnds(cfg, next, next.buyers.tracker.AnyTaskSuccessfullyCompleted(), e);
    }
  }

  lemma BuyerStepEnds(cfg: Config, run: Run, s: State, e: Event)
    requires Orphans(run) >= 0 && Inv(cfg, run, s) && Collecting(cfg, s) && Enabled(cfg, s, e) && BuyersEvent(e)
    ensures EndsWell(cfg, s, BidsKnown(cfg, s, e), e, After(cfg, s, e))
  {
    hide OnAllBidsDone, BidTaskCompleted, EndStatus, CancelledStatus, FiltersBids, AtRest;
    match e
    case NobodyToAsk(c) => AllBidsDoneEnds(cfg, s, true, e);
    case SendNext(outcome, c) =>
      if StatusOfStep(cfg, s, e).Some? {
        BidTaskEnds(cfg, s, s.buyers.(toSolicit := s.buyers.toSolicit[1..]), StatusOfStep(cfg, s, e).value, e);
      }
    case SkipNext(c) => BidTaskEnds(cfg, s, s.buyers.(toSkip := s.buyers.toSkip - 1), T.Skipped, e);
    case BidsArrive(k, response, c) =>
      BidTaskEnds(cfg, s, Received(cfg, s, k, response), FetchBidStatus(cfg, s, response), e);
  }

  lemma KAnonStepEnds(cfg: Config, s: State, e: Event)
    requires s.finishes == [] && s.scoreRequests == [] && !s.scoring
    requires Enabled(cfg, s, e) && (e.QueryKAnon? || e.KAnonAnswers?)
    ensures EndsWell(cfg, s, BidsKnown(cfg, s, e), e, After(cfg, s, e))
  {
    hide JoinTaskCompleted, EndStatus, CancelledStatus;
    var known := BidsKnown(cfg, s, e);
    if e.QueryKAnon? {
      var queried := s.lookups.(hashSets := e.sets, kAnon := Ended);
      JoinEnds(cfg, s, known, queried, T.Skipped, e);
      JoinEnds(cfg, s, known, queried.(statuses := StatusesFor(cfg.enforceKAnon, e.sets, {})), T.Error, e);
    } else {
      var answered := s.lookups.(kAnon := Ended);
      JoinEnds(cfg, s, known, answered, T.Error, e);
      if e.known.Some? {
        var statuses := StatusesFor(cfg.enforceKAnon, s.lookups.hashSets, e.known.value);
        JoinEnds(cfg, s, known, answered.(answer := e.known, statuses := statuses), T.Success, e);
      }
    }
  }

  lemma SignalsStepEnds(cfg: Config, s: State, e: Event)
    requires s.finishes == [] && s.scoreRequests == [] && !s.scoring && SignalsKept(s) && cfg.fetchSignals
    requires Enabled(cfg, s, e) && e.SignalsArrive?
    ensures EndsWell(cfg, s, BidsKnown(cfg, s, e), e, After(cfg, s, e))
  {
    hide JoinTaskCompleted;
    var known, ended := BidsKnown(cfg, s, e), s.lookups.(signalsTask := Ended);
    if !cfg.useKvV2 {
      JoinEnds(cfg, s, known, ended, T.Cancelled, e);
      JoinEnds(cfg, s, known, ended.(signals := e.answered), T.Success, e);
    } else if !IsCancelled(cfg, s) {
      JoinEnds(cfg, s, known, ended.(signals := e.answered), T.Success, e);
    }
  }

  lemma StepEnds(cfg: Config, run: Run, s: State, e: Event)
    requires Orphans(run) >= 0 && Inv(cfg, run, s) && SignalsKept(s) && s.finishes == [] && Enabled(cfg, s, e)
    ensures EndsWell(cfg, s, BidsKnown(cfg, s, e), e, After(cfg, s, e))
  {
    if BuyersEvent(e) {
      StillCollecting(cfg, run, s, e);
      BuyerStepEnds(cfg, run, s, e);
    } else if e.QueryKAnon? || e.KAnonAnswers? {
      KAnonStepEnds(cfg, s, e);
    } else if e.SignalsArrive? {
      SignalsStepEnds(cfg, s, e);
    }
  }

  lemma SignalsStepKeepsKept(cfg: Config, s: State, e: Event)
    requires SignalsKept(s) && Enabled(cfg, s, e) && e.SignalsArrive?
    ensures SignalsKept(After(cfg, s, e))
  {
    hide OnFetchScoringSignalsDone;
    var ended := s.lookups.(signalsTask := Ended);
    JoinKeepsSignals(cfg, s, ended, T.Cancelled, e.c);
    JoinKeepsSignals(cfg, s, ended.(signals := e.answered), T.Success, e.c);
  }

  lemma StepKeepsKept(cfg: Config, run: Run, s: State, e: Event)
    requires Orphans(run) >= 0 && Inv(cfg, run, s) && SignalsKept(s) && Enabled(cfg, s, e)
    ensures SignalsKept(After(cfg, s, e))
  {
    if BuyersEvent(e) {
      StillCollecting(cfg, run, s, e);
      BuyerStepKeepsSignals(cfg, s, e);
    } else if e.QueryKAnon? || e.KAnonAnswers? {
      KAnonStepKeepsSignals(cfg, s, e);
    } else if e.SignalsArrive? {
      SignalsStepKeepsKept(cfg, s, e);
    } else if e.ScoresArrive? {
      ScoresKeepLookups(cfg, s, e);
    }
  }

  lemma {:induction false} KeptSoFar(cfg: Config, request: Request, run: Run, t: Trace, k: nat)
    requires IsRun(request, run) && IsTrace(cfg, run, t) && k <= |t.events|
    ensures SignalsKept(t.states[k])
  {
    hide Inv, Enabled, After, IsRun;
    OrphansAreNotNegative(request, run);
    if k > 0 {
      KeptSoFar(cfg, request, run, t, k - 1);
      ReachedKeepsInv(cfg, request, run, t, k - 1);
      assert StepAt(cfg, t, k - 1);
      StepKeepsKept(cfg, run, t.states[k - 1], t.events[k - 1]);
    }
  }

  /** Whichever step of whichever run finishes the RPC, this is the status it finishes it with. */
  lemma StatusOfTheEnd(cfg: Config, request: Request, run: Run, t: Trace, k: nat)
    requires IsRun(request, run) && IsTrace(cfg, run, t) && k < |t.events|
    requires t.states[k].finishes == [] && t.states[k + 1].finishes != []
    ensures !MeetsCancellation(cfg, t.states[k], t.events[k]) ==>
              t.states[k + 1].finishes ==
                [EndStatus(cfg, BidsKnown(cfg, t.states[k], t.events[k]), t.events[k], t.states[k + 1])]
    ensures IsCancelled(cfg, t.states[k]) ==>
              t.states[k + 1].finishes == [CancelledStatus(cfg, t.events[k], t.states[k + 1])]
  {
    EndsWellAt(cfg, request, run, t, k);
  }

  lemma EndsWellAt(cfg: Config, request: Request, run: Run, t: Trace, k: nat)
    requires IsRun(request, run) && IsTrace(cfg, run, t) && k < |t.events| && t.states[k].finishes == []
    ensures EndsWell(cfg, t.states[k], BidsKnown(cfg, t.states[k], t.events[k]), t.events[k], t.states[k + 1])
  {
    assert StepAt(cfg, t, k);
    OrphansAreNotNegative(request, run);
    ReachedKeepsInv(cfg, request, run, t, k);
    KeptSoFar(cfg, request, run, t, k);
    hide Inv, Enabled, After, SignalsKept, EndStatus, CancelledStatus, IsRun;
    StepEnds(cfg, run, t.states[k], t.events[k]);
  }

  /** The step that calls the auction server: scores are awaited, and the RPC is left open, exactly if the call
      succeeds. */
  lemma ScoresAreAwaitedIff(cfg: Config, request: Request, run: Run, t: Trace, k: nat)
    requires IsRun(request, run) && IsTrace(cfg, run, t) && k < |t.events|
    requires t.states[k].scoreRequests == [] && t.states[k + 1].scoreRequests != [] && t.states[k].finishes == []
    ensures CallsScoring(t.events[k], t.states[k + 1])
  {
    EndsWellAt(cfg, request, run, t, k);
  }
}
