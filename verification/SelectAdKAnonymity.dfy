/** The k-anonymity statuses a SelectAd run sends for scoring, in every order of the callbacks. */
module SelectAdKAnonymity {
  import opened Sequences
  import opened BidTypes
  import opened BuyerSelection
  import opened KAnonHashes
  import opened SelectAdReactor
  import opened SelectAdProtocol
  import T = TaskTracker

  // ---------- the k-anonymity statuses sent for scoring ----------

  ghost predicate StatusesAreSound(cfg: Config, bids: BuyerBidsResponseMap, l: Lookups) {
    cfg.enforceKAnon ==>
      && (l.kAnon != Ended ==> l.statuses == map[] && l.answer == None)
      && (l.kAnon in {InFlight, Ended} ==> AllHashed(cfg.hashing, bids, l.hashSets))
      && (match l.answer
          case Some(known) => l.statuses == StatusesFor(true, l.hashSets, known)
          case None => l.statuses == map[] || l.statuses == StatusesFor(true, l.hashSets, {}))
  }

  ghost predicate KAnonInv(cfg: Config, s: State) {
    && StatusesAreSound(cfg, s.buyers.bids, s.lookups)
    && (forall req :: req in s.scoreRequests ==> req == ScoreRequest(s.buyers.bids, s.lookups.statuses))
  }

  lemma JoinKeepsKAnon(cfg: Config, s: State, lookups: Lookups, status: T.TaskStatus, c: Choices)
    requires s.scoreRequests == [] && StatusesAreSound(cfg, s.buyers.bids, lookups)
    ensures KAnonInv(cfg, JoinTaskCompleted(cfg, s, lookups, status, c))
  {
    var next := s.(lookups := lookups.(join := lookups.join.Completed(status)));
    SignalsDoneFrame(cfg, next, c);
  }

  /** Before the query nothing depends on which bids there are. */
  lemma SoundBeforeQuery(cfg: Config, bids: BuyerBidsResponseMap, l: Lookups, after: BuyerBidsResponseMap)
    requires StatusesAreSound(cfg, bids, l) && l.kAnon == Idle
    ensures StatusesAreSound(cfg, after, l) && StatusesAreSound(cfg, after, Started(cfg, l))
  {
  }

  lemma AllBidsDoneFrame(cfg: Config, s: State, any: bool, c: Choices)
    requires s.scoreRequests == []
    ensures var next := OnAllBidsDone(cfg, s, any, c);
      && (next.lookups == s.lookups || next.lookups == Started(cfg, s.lookups))
      && forall req :: req in next.scoreRequests ==> req == ScoreRequest(next.buyers.bids, next.lookups.statuses)
  {
    hide ScoreAds;
    var next := OnAllBidsDone(cfg, s, any, c);
    var done := s.(buyers := s.buyers.(allDone := s.buyers.allDone + 1));
    var filtered := done.(buyers := done.buyers.(bids := c.filtered));
    var cancelled := cfg.enableCancellation && (s.clientCancelled || c.lateCancel);
    if cancelled || s.buyers.bids == map[] || c.filtered == map[] {
      assert next.lookups == s.lookups && next.scoreRequests == [];
    } else if cfg.fetchSignals || cfg.enforceKAnon {
      assert next == filtered.(lookups := Started(cfg, s.lookups));
    } else {
      assert next == ScoreAds(cfg, filtered, c);
      ScoreAdsSends(cfg, filtered, c);
    }
  }

  lemma ScoreAdsSends(cfg: Config, s: State, c: Choices)
    requires s.scoreRequests == []
    ensures var next := ScoreAds(cfg, s, c);
      && next.lookups == s.lookups && next.buyers == s.buyers
      && (next.scoreRequests == [] || next.scoreRequests == [ScoreRequest(s.buyers.bids, s.lookups.statuses)])
  {
  }

  lemma AllBidsDoneKeepsKAnon(cfg: Config, s: State, any: bool, c: Choices)
    requires KAnonInv(cfg, s) && s.lookups.kAnon == Idle && s.scoreRequests == []
    ensures KAnonInv(cfg, OnAllBidsDone(cfg, s, any, c))
  {
    AllBidsDoneFrame(cfg, s, any, c);
    SoundBeforeQuery(cfg, s.buyers.bids, s.lookups, OnAllBidsDone(cfg, s, any, c).buyers.bids);
  }

  lemma BidTaskKeepsKAnon(cfg: Config, s: State, buyers: Buyers, status: T.TaskStatus, c: Choices)
    requires Collecting(cfg, s) && KAnonInv(cfg, s)
    ensures KAnonInv(cfg, BidTaskCompleted(cfg, s, buyers, status, c))
  {
    var next := s.(buyers := buyers.(tracker := buyers.tracker.Completed(status)));
    if next.buyers.tracker.pending == 0 {
      AllBidsDoneKeepsKAnon(cfg, next, next.buyers.tracker.AnyTaskSuccessfullyCompleted(), c);
    }
  }

  lemma SendKeepsKAnon(cfg: Config, s: State, outcome: SendOutcome, c: Choices)
    requires Collecting(cfg, s) && KAnonInv(cfg, s) && s.buyers.toSolicit != []
    ensures KAnonInv(cfg, FetchBid(cfg, s, outcome, c))
  {
    var taken := s.buyers.(toSolicit := s.buyers.toSolicit[1..]);
    if IsCancelled(cfg, s) {
      BidTaskKeepsKAnon(cfg, s, taken, T.Cancelled, c);
    } else if outcome == NoBuyerClient {
      BidTaskKeepsKAnon(cfg, s, taken, T.Skipped, c);
    } else if outcome == SendFails {
      BidTaskKeepsKAnon(cfg, s, taken, T.Error, c);
    }
  }

  lemma BidsArriveKeepsKAnon(cfg: Config, s: State, k: nat, response: Option<GetBidsResponse>, c: Choices)
    requires Collecting(cfg, s) && KAnonInv(cfg, s) && k < |s.buyers.awaited|
    ensures KAnonInv(cfg, OnFetchBidsDone(cfg, s, k, response, c))
  {
    var received := Received(cfg, s, k, response);
    BidTaskKeepsKAnon(cfg, s, received, FetchBidStatus(cfg, s, response), c);
  }

  lemma BuyerStepsKeepKAnon(cfg: Config, run: Run, s: State, e: Event)
    requires Orphans(run) >= 0 && Inv(cfg, run, s) && KAnonInv(cfg, s) && Enabled(cfg, s, e)
    requires e.NobodyToAsk? || e.SendNext? || e.SkipNext? || e.BidsArrive?
    ensures KAnonInv(cfg, After(cfg, s, e))
  {
    StillCollecting(cfg, run, s, e);
    match e
    case NobodyToAsk(c) => AllBidsDoneKeepsKAnon(cfg, s, true, c);
    case SendNext(outcome, c) => SendKeepsKAnon(cfg, s, outcome, c);
    case SkipNext(c) => BidTaskKeepsKAnon(cfg, s, s.buyers.(toSkip := s.buyers.toSkip - 1), T.Skipped, c);
    case BidsArrive(k, response, c) => BidsArriveKeepsKAnon(cfg, s, k, response, c);
  }

  lemma QueryKeepsKAnon(cfg: Config, run: Run, s: State, e: Event)
    requires Inv(cfg, run, s) && KAnonInv(cfg, s) && Enabled(cfg, s, e) && e.QueryKAnon?
    ensures KAnonInv(cfg, After(cfg, s, e))
  {
    var queried := s.lookups.(hashSets := e.sets, kAnon := Ended);
    JoinKeepsKAnon(cfg, s, queried, T.Skipped, e.c);
    JoinKeepsKAnon(cfg, s, queried.(statuses := StatusesFor(cfg.enforceKAnon, e.sets, {})), T.Error, e.c);
  }

  lemma AnswerKeepsKAnon(cfg: Config, run: Run, s: State, e: Event)
    requires Inv(cfg, run, s) && KAnonInv(cfg, s) && Enabled(cfg, s, e) && e.KAnonAnswers?
    ensures KAnonInv(cfg, After(cfg, s, e))
  {
    var answered := s.lookups.(kAnon := Ended);
    match e.known
    case None => JoinKeepsKAnon(cfg, s, answered, T.Error, e.c);
    case Some(hashes) =>
      var statuses := StatusesFor(cfg.enforceKAnon, s.lookups.hashSets, hashes);
      JoinKeepsKAnon(cfg, s, answered.(answer := e.known, statuses := statuses), T.Success, e.c);
  }

  lemma SignalsKeepKAnon(cfg: Config, run: Run, s: State, result: Signals, c: Choices)
    requires Inv(cfg, run, s) && KAnonInv(cfg, s) && s.lookups.signalsTask == InFlight
    ensures KAnonInv(cfg, OnSignals(cfg, s, result, c))
  {
    var ended := s.lookups.(signalsTask := Ended);
    if !cfg.useKvV2 && IsCancelled(cfg, s) {
      JoinKeepsKAnon(cfg, s, ended, T.Cancelled, c);
    } else if !cfg.useKvV2 || (!IsCancelled(cfg, s) && result.Fetched?) {
      JoinKeepsKAnon(cfg, s, ended.(signals := result), T.Success, c);
    }
  }

  lemma OtherStepsKeepKAnon(cfg: Config, s: State, e: Event)
    requires KAnonInv(cfg, s) && Enabled(cfg, s, e)
    requires e.ClientCancels? || e.FetchSignals? || e.ScoresArrive?
    ensures KAnonInv(cfg, After(cfg, s, e))
  {
    var next := After(cfg, s, e);
    assert next.buyers == s.buyers && next.scoreRequests == s.scoreRequests;
    assert next.lookups == s.lookups.(signalsTask := next.lookups.signalsTask);
  }

  lemma StepKeepsKAnon(cfg: Config, run: Run, s: State, e: Event)
    requires Orphans(run) >= 0 && Inv(cfg, run, s) && KAnonInv(cfg, s) && Enabled(cfg, s, e)
    ensures KAnonInv(cfg, After(cfg, s, e))
  {
    if e.NobodyToAsk? || e.SendNext? || e.SkipNext? || e.BidsArrive? {
      BuyerStepsKeepKAnon(cfg, run, s, e);
    } else if e.QueryKAnon? {
      QueryKeepsKAnon(cfg, run, s, e);
    } else if e.KAnonAnswers? {
      AnswerKeepsKAnon(cfg, run, s, e);
    } else if e.SignalsArrive? {
      SignalsKeepKAnon(cfg, run, s, e.answered, e.c);
    } else {
      OtherStepsKeepKAnon(cfg, s, e);
    }
  }

  lemma InitialKAnon(cfg: Config, run: Run)
    ensures KAnonInv(cfg, Initial(cfg, run))
  {
  }

  lemma {:induction false} ReachedKeepsKAnon(cfg: Config, request: Request, run: Run, t: Trace, k: nat)
    requires IsRun(request, run) && IsTrace(cfg, run, t) && k <= |t.events|
    ensures KAnonInv(cfg, t.states[k])
  {
    hide KAnonInv, Inv, Enabled, After, IsRun;
    OrphansAreNotNegative(request, run);
    if k == 0 {
      InitialKAnon(cfg, run);
    } else {
      ReachedKeepsKAnon(cfg, request, run, t, k - 1);
      ReachedKeepsInv(cfg, request, run, t, k - 1);
      assert StepAt(cfg, t, k - 1);
      StepKeepsKAnon(cfg, run, t.states[k - 1], t.events[k - 1]);
    }
  }

  lemma SoundStatuses(cfg: Config, s: State, scored: ScoreRequest, key: BidKey)
    requires cfg.enforceKAnon && KAnonInv(cfg, s) && s.lookups.kAnon == Ended && scored in s.scoreRequests
    ensures IsKAnonymous(scored.statuses, key) <==>
              && s.lookups.answer.Some?
              && KnowsAll(cfg.hashing, scored.bids, key, s.lookups.answer.value)
  {
    match s.lookups.answer
    case None => NothingKnownNothingKAnonymous(cfg.hashing, scored.bids, s.lookups.hashSets, key);
    case Some(known) => KAnonymousIff(true, cfg.hashing, scored.bids, s.lookups.hashSets, known, key);
  }

  /** Whatever the order of the callbacks, an enforced status is true iff the service has answered and knows every
      hash of the bid; no answer means no k-anonymous bid. */
  lemma ScoredStatusesComeFromTheService(
    cfg: Config, request: Request, run: Run, t: Trace, s: State, scored: ScoreRequest, key: BidKey)
    requires IsRun(request, run) && Reaches(cfg, run, t, s)
    requires cfg.enforceKAnon && scored in s.scoreRequests
    ensures IsKAnonymous(scored.statuses, key) <==>
              && s.lookups.answer.Some?
              && KnowsAll(cfg.hashing, scored.bids, key, s.lookups.answer.value)
  {
    ReachedKeepsKAnon(cfg, request, run, t, |t.events|);
    ScoringWaitsForEverything(cfg, request, run, t, s);
    SoundStatuses(cfg, s, scored, key);
  }

  // ---------- when the service is asked, and what it answered ----------

  /** The service is asked exactly if some bid has hashes to ask for and the call succeeds. */
  lemma ServiceIsAskedIff(cfg: Config, s: State, e: Event)
    requires Enabled(cfg, s, e) && e.QueryKAnon?
    ensures After(cfg, s, e).lookups.kAnon == InFlight <==>
              e.lookupCallOk && exists key :: IsHashed(cfg.hashing, s.buyers.bids, key)
  {
    var queried := s.lookups.(hashSets := e.sets, kAnon := Ended);
    JoinKeepsLookups(cfg, s, queried, T.Skipped, e.c);
    JoinKeepsLookups(cfg, s, queried.(statuses := StatusesFor(cfg.enforceKAnon, e.sets, {})), T.Error, e.c);
    hide JoinTaskCompleted;
    SomethingHashed(cfg.hashing, s.buyers.bids, e.sets);
  }

  lemma SomethingHashed(h: Hashing, bids: BuyerBidsResponseMap, sets: HashSets)
    requires AllHashed(h, bids, sets)
    ensures (forall key :: key in sets ==> sets[key] == {}) <==> !exists key :: IsHashed(h, bids, key)
    ensures sets == map[] <==> !exists key :: IsHashed(h, bids, key)
  {
    forall key | key in sets ensures sets[key] != {} {
      var render := if key.AudienceBid? then bids[key.buyer].bids[key.index].render
                    else bids[key.buyer].protectedAppSignalsBids[key.index].render;
      var hash := h.util.adRenderUrl(key.buyer, h.reportWinUrls[key.buyer], render);
      assert IsHashOf(h, bids, key, hash);
      assert hash in sets[key];
    }
    if key :| IsHashed(h, bids, key) {
      assert key in sets;
    } else {
      assert sets.Keys == {};
    }
  }

  lemma JoinKeepsLookups(cfg: Config, s: State, lookups: Lookups, status: T.TaskStatus, c: Choices)
    ensures var next := JoinTaskCompleted(cfg, s, lookups, status, c).lookups;
      next == lookups.(join := next.join)
  {
    SignalsDoneFrame(cfg, s.(lookups := lookups.(join := lookups.join.Completed(status))), c);
  }

  /** The answer is what the service's own event brings. */
  lemma StepAnswer(cfg: Config, s: State, e: Event)
    requires Enabled(cfg, s, e)
    ensures After(cfg, s, e).lookups.answer ==
              if e.KAnonAnswers? && e.known.Some? then e.known else s.lookups.answer
  {
    if e.QueryKAnon? || e.KAnonAnswers? || e.SignalsArrive? {
      LookupStepAnswer(cfg, s, e);
    } else if e.NobodyToAsk? || e.SendNext? || e.SkipNext? || e.BidsArrive? {
      BuyerStepAnswer(cfg, s, e);
    }
  }

  lemma LookupStepAnswer(cfg: Config, s: State, e: Event)
    requires Enabled(cfg, s, e) && (e.QueryKAnon? || e.KAnonAnswers? || e.SignalsArrive?)
    ensures After(cfg, s, e).lookups.answer ==
              if e.KAnonAnswers? && e.known.Some? then e.known else s.lookups.answer
  {
    hide JoinTaskCompleted;
    match e
    case QueryKAnon(sets, _, c) =>
      var queried := s.lookups.(hashSets := sets, kAnon := Ended);
      JoinKeepsLookups(cfg, s, queried, T.Skipped, c);
      JoinKeepsLookups(cfg, s, queried.(statuses := StatusesFor(cfg.enforceKAnon, sets, {})), T.Error, c);
    case KAnonAnswers(known, c) =>
      var answered := s.lookups.(kAnon := Ended);
      JoinKeepsLookups(cfg, s, answered, T.Error, c);
      if known.Some? {
        var statuses := StatusesFor(cfg.enforceKAnon, s.lookups.hashSets, known.value);
        JoinKeepsLookups(cfg, s, answered.(answer := known, statuses := statuses), T.Success, c);
      }
    case SignalsArrive(answered, c) =>
      var ended := s.lookups.(signalsTask := Ended);
      JoinKeepsLookups(cfg, s, ended, T.Cancelled, c);
      JoinKeepsLookups(cfg, s, ended.(signals := answered), T.Success, c);
  }

  lemma AllBidsDoneKeepsAnswer(cfg: Config, s: State, any: bool, c: Choices)
    ensures OnAllBidsDone(cfg, s, any, c).lookups.answer == s.lookups.answer
  {
    hide ScoreAds;
    var done := s.(buyers := s.buyers.(allDone := s.buyers.allDone + 1));
    ScoreAdsFrame(cfg, done.(buyers := done.buyers.(bids := c.filtered)), c);
  }

  lemma BidTaskKeepsAnswer(cfg: Config, s: State, buyers: Buyers, status: T.TaskStatus, c: Choices)
    ensures BidTaskCompleted(cfg, s, buyers, status, c).lookups.answer == s.lookups.answer
  {
    hide OnAllBidsDone;
    var next := s.(buyers := buyers.(tracker := buyers.tracker.Completed(status)));
    AllBidsDoneKeepsAnswer(cfg, next, next.buyers.tracker.AnyTaskSuccessfullyCompleted(), c);
  }

  lemma BuyerStepAnswer(cfg: Config, s: State, e: Event)
    requires Enabled(cfg, s, e) && (e.NobodyToAsk? || e.SendNext? || e.SkipNext? || e.BidsArrive?)
    ensures After(cfg, s, e).lookups.answer == s.lookups.answer
  {
    hide OnAllBidsDone, BidTaskCompleted, FiltersBids;
    match e
    case NobodyToAsk(c) => AllBidsDoneKeepsAnswer(cfg, s, true, c);
    case SendNext(outcome, c) =>
      var taken := s.buyers.(toSolicit := s.buyers.toSolicit[1..]);
      BidTaskKeepsAnswer(cfg, s, taken, T.Cancelled, c);
      BidTaskKeepsAnswer(cfg, s, taken, T.Skipped, c);
      BidTaskKeepsAnswer(cfg, s, taken, T.Error, c);
    case SkipNext(c) => BidTaskKeepsAnswer(cfg, s, s.buyers.(toSkip := s.buyers.toSkip - 1), T.Skipped, c);
    case BidsArrive(k, response, c) =>
      BidTaskKeepsAnswer(cfg, s, Received(cfg, s, k, response), FetchBidStatus(cfg, s, response), c);
  }

  /** The event brings this answer of the service. */
  predicate BringsAnswer(e: Event, known: set<string>) {
    e.KAnonAnswers? && e.known == Some(known)
  }

  /** The answer the statuses are computed from is the one an event of the run brought, and there is only one. */
  lemma {:induction false} AnswerWasBrought(
    cfg: Config, request: Request, run: Run, t: Trace, k: nat, known: set<string>)
    requires IsRun(request, run) && IsTrace(cfg, run, t) && k <= |t.events|
    ensures t.states[k].lookups.answer == Some(known) <==> exists i :: 0 <= i < k && BringsAnswer(t.events[i], known)
  {
    hide Inv, After, KAnonInv, IsRun;
    if k > 0 {
      AnswerWasBrought(cfg, request, run, t, k - 1, known);
      assert StepAt(cfg, t, k - 1);
      StepAnswer(cfg, t.states[k - 1], t.events[k - 1]);
      ReachedKeepsInv(cfg, request, run, t, k - 1);
      ReachedKeepsKAnon(cfg, request, run, t, k - 1);
      if t.events[k - 1].KAnonAnswers? {
        NotAnsweredYet(cfg, run, t.states[k - 1], t.events[k - 1]);
      }
    }
  }

  lemma NotAnsweredYet(cfg: Config, run: Run, s: State, e: Event)
    requires Inv(cfg, run, s) && KAnonInv(cfg, s) && Enabled(cfg, s, e) && e.KAnonAnswers?
    ensures s.lookups.answer == None
  {
  }
}
