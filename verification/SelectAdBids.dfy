/** Which bids a SelectAd run scores, and how it ends when there are none. */
module SelectAdBids {
  import opened Sequences
  import opened BidTypes
  import opened BuyerSelection
  import opened CurrencyFilter
  import opened KAnonHashes
  import opened SelectAdReactor
  import opened SelectAdProtocol
  import opened SelectAdKAnonymity
  import T = TaskTracker

  // ---------- where the scored bids come from ----------

  /** No lookup has started and nothing was sent for scoring. */
  ghost predicate Untouched(s: State) {
    s.scoreRequests == [] && s.lookups.kAnon == Idle && s.lookups.signalsTask == Idle
  }

  /** After a step with these choices: the bids known while collecting, then the filtered ones unless it gave up. */
  ghost predicate BidsOf(next: State, known: BuyerBidsResponseMap, c: Choices) {
    if next.buyers.allDone == 0 then next.buyers.bids == known
    else Untouched(next) || next.buyers.bids == c.filtered
  }

  lemma AllBidsDoneBids(cfg: Config, s: State, any: bool, c: Choices)
    requires Collecting(cfg, s)
    ensures var next := OnAllBidsDone(cfg, s, any, c);
      next.buyers.allDone == 1 && (Untouched(next) || next.buyers.bids == c.filtered)
  {
    ScoreAdsFrame(cfg, s.(buyers := s.buyers.(allDone := 1, bids := c.filtered)), c);
  }

  lemma BidTaskBids(cfg: Config, s: State, buyers: Buyers, status: T.TaskStatus, c: Choices)
    requires Collecting(cfg, s) && buyers.allDone == 0
    ensures BidsOf(BidTaskCompleted(cfg, s, buyers, status, c), buyers.bids, c)
  {
    var next := s.(buyers := buyers.(tracker := buyers.tracker.Completed(status)));
    if next.buyers.tracker.pending == 0 {
      AllBidsDoneBids(cfg, next, next.buyers.tracker.AnyTaskSuccessfullyCompleted(), c);
    }
  }

  /** What BidsOf says of a step of the buyers' part. */
  ghost predicate StepBids(cfg: Config, s: State, e: Event)
    requires Enabled(cfg, s, e) && (e.NobodyToAsk? || e.SendNext? || e.SkipNext? || e.BidsArrive?)
  {
    BidsOf(After(cfg, s, e), BidsKnown(cfg, s, e), e.c)
  }

  lemma SendBids(cfg: Config, s: State, e: Event)
    requires Collecting(cfg, s) && Enabled(cfg, s, e) && e.SendNext?
    ensures StepBids(cfg, s, e)
  {
    var taken := s.buyers.(toSolicit := s.buyers.toSolicit[1..]);
    if IsCancelled(cfg, s) {
      BidTaskBids(cfg, s, taken, T.Cancelled, e.c);
    } else if e.outcome == NoBuyerClient {
      BidTaskBids(cfg, s, taken, T.Skipped, e.c);
    } else if e.outcome == SendFails {
      BidTaskBids(cfg, s, taken, T.Error, e.c);
    }
  }

  lemma ArrivedBids(cfg: Config, s: State, e: Event)
    requires Collecting(cfg, s) && Enabled(cfg, s, e) && e.BidsArrive?
    ensures StepBids(cfg, s, e)
  {
    var received := Received(cfg, s, e.k, e.response);
    assert BidsKnown(cfg, s, e) == received.bids;
    assert After(cfg, s, e) == BidTaskCompleted(cfg, s, received, FetchBidStatus(cfg, s, e.response), e.c);
    BidTaskBids(cfg, s, received, FetchBidStatus(cfg, s, e.response), e.c);
  }

  lemma SkippedBids(cfg: Config, s: State, e: Event)
    requires Collecting(cfg, s) && Enabled(cfg, s, e) && e.SkipNext?
    ensures StepBids(cfg, s, e)
  {
    var buyers := s.buyers.(toSkip := s.buyers.toSkip - 1);
    var next := BidTaskCompleted(cfg, s, buyers, T.Skipped, e.c);
    assert After(cfg, s, e) == next && BidsKnown(cfg, s, e) == buyers.bids;
    BidTaskBids(cfg, s, buyers, T.Skipped, e.c);
  }

  lemma NobodyBids(cfg: Config, s: State, e: Event)
    requires Collecting(cfg, s) && Enabled(cfg, s, e) && e.NobodyToAsk?
    ensures StepBids(cfg, s, e)
  {
    AllBidsDoneBids(cfg, s, true, e.c);
  }

  lemma BuyerStepBids(cfg: Config, s: State, e: Event)
    requires Collecting(cfg, s) && Enabled(cfg, s, e)
    requires e.NobodyToAsk? || e.SendNext? || e.SkipNext? || e.BidsArrive?
    ensures StepBids(cfg, s, e)
  {
    if e.NobodyToAsk? {
      NobodyBids(cfg, s, e);
    } else if e.SendNext? {
      SendBids(cfg, s, e);
    } else if e.SkipNext? {
      SkippedBids(cfg, s, e);
    } else {
      ArrivedBids(cfg, s, e);
    }
  }

  /** While bids are collected a step adds its answer; the step that ends this filters them, or gives up. */
  lemma CollectingStepBids(cfg: Config, s: State, e: Event)
    requires Collecting(cfg, s) && Enabled(cfg, s, e)
    requires e.NobodyToAsk? || e.SendNext? || e.SkipNext? || e.BidsArrive?
    ensures var next := After(cfg, s, e);
      if next.buyers.allDone == 0 then next.buyers.bids == BidsKnown(cfg, s, e)
      else Untouched(next) || Filtered(cfg.features, cfg.currencies, BidsKnown(cfg, s, e), next.buyers.bids)
  {
    BuyerStepBids(cfg, s, e);
    assert FiltersBids(cfg, s, e, e.c);
  }

  lemma JoinFrame(cfg: Config, s: State, lookups: Lookups, status: T.TaskStatus, c: Choices)
    ensures JoinTaskCompleted(cfg, s, lookups, status, c).buyers == s.buyers
  {
    SignalsDoneFrame(cfg, s.(lookups := lookups.(join := lookups.join.Completed(status))), c);
  }

  lemma LookupStepFrame(cfg: Config, s: State, e: Event)
    requires Enabled(cfg, s, e) && (e.QueryKAnon? || e.KAnonAnswers? || e.SignalsArrive?)
    ensures After(cfg, s, e).buyers == s.buyers
  {
    match e
    case QueryKAnon(sets, _, c) =>
      var queried := s.lookups.(hashSets := sets, kAnon := Ended);
      JoinFrame(cfg, s, queried, T.Skipped, c);
      JoinFrame(cfg, s, queried.(statuses := StatusesFor(cfg.enforceKAnon, sets, {})), T.Error, c);
    case KAnonAnswers(known, c) =>
      var answered := s.lookups.(kAnon := Ended);
      JoinFrame(cfg, s, answered, T.Error, c);
      if known.Some? {
        var statuses := StatusesFor(cfg.enforceKAnon, s.lookups.hashSets, known.value);
        JoinFrame(cfg, s, answered.(answer := known, statuses := statuses), T.Success, c);
      }
    case SignalsArrive(answered, c) =>
      var ended := s.lookups.(signalsTask := Ended);
      JoinFrame(cfg, s, ended, T.Cancelled, c);
      JoinFrame(cfg, s, ended.(signals := answered), T.Success, c);
  }

  /** Every other step leaves the bids alone, and whoever has given up stays so. */
  lemma OtherStepBids(cfg: Config, run: Run, s: State, e: Event)
    requires Inv(cfg, run, s) && Enabled(cfg, s, e)
    requires !(e.NobodyToAsk? || e.SendNext? || e.SkipNext? || e.BidsArrive?)
    ensures var next := After(cfg, s, e);
      next.buyers == s.buyers && (Untouched(s) ==> Untouched(next))
  {
    if e.QueryKAnon? || e.KAnonAnswers? || e.SignalsArrive? {
      LookupStepFrame(cfg, s, e);
    }
  }

  /** The event brings this buyer's answer, one with bids of an enabled type. */
  ghost predicate IsAnswer(cfg: Config, s: State, e: Event, buyer: string, response: GetBidsResponse) {
    && e.BidsArrive? && e.k < |s.buyers.awaited| && s.buyers.awaited[e.k] == buyer
    && e.response == Some(response) && HasBids(cfg.features, response)
  }

  /** The first answer of a buyer, unless the client has cancelled, is the one taken. */
  ghost predicate Takes(cfg: Config, s: State, e: Event, buyer: string, response: GetBidsResponse) {
    IsAnswer(cfg, s, e, buyer, response) && !IsCancelled(cfg, s) && buyer !in s.buyers.bids
  }

  ghost predicate Taken(cfg: Config, t: Trace, k: nat, buyer: string, response: GetBidsResponse)
    requires k <= |t.events| < |t.states|
  {
    exists i :: 0 <= i < k && Takes(cfg, t.states[i], t.events[i], buyer, response)
  }

  /** The map holds exactly the answers taken before event k. */
  ghost predicate HoldsTaken(cfg: Config, t: Trace, k: nat, bids: BuyerBidsResponseMap)
    requires k <= |t.events| < |t.states|
  {
    forall buyer, response ::
      Taken(cfg, t, k, buyer, response) <==> buyer in bids && bids[buyer] == response
  }

  lemma TakenMore(cfg: Config, t: Trace, k: nat, buyer: string, response: GetBidsResponse)
    requires k < |t.events| < |t.states|
    ensures Taken(cfg, t, k + 1, buyer, response) <==>
              Taken(cfg, t, k, buyer, response) || Takes(cfg, t.states[k], t.events[k], buyer, response)
  {
  }

  lemma NothingTaken(cfg: Config, t: Trace, k: nat, bids: BuyerBidsResponseMap)
    requires k < |t.events| < |t.states| && HoldsTaken(cfg, t, k, bids) && !t.events[k].BidsArrive?
    ensures HoldsTaken(cfg, t, k + 1, bids)
  {
    var next := k + 1;
    forall buyer, response
      ensures Taken(cfg, t, next, buyer, response) <==> buyer in bids && bids[buyer] == response
    {
      TakenMore(cfg, t, k, buyer, response);
    }
  }

  lemma KnownTaken(cfg: Config, t: Trace, k: nat)
    requires k < |t.events| < |t.states| && HoldsTaken(cfg, t, k, t.states[k].buyers.bids)
    ensures HoldsTaken(cfg, t, k + 1, BidsKnown(cfg, t.states[k], t.events[k]))
  {
    var known := BidsKnown(cfg, t.states[k], t.events[k]);
    var next := k + 1;
    forall buyer, response
      ensures Taken(cfg, t, next, buyer, response) <==> buyer in known && known[buyer] == response
    {
      TakenMore(cfg, t, k, buyer, response);
    }
  }

  /** The bids are the answers taken while collecting; afterwards they are those answers filtered. */
  ghost predicate BidsAt(cfg: Config, t: Trace, k: nat, before: BuyerBidsResponseMap)
    requires k <= |t.events| < |t.states|
  {
    && HoldsTaken(cfg, t, k, before)
    && if t.states[k].buyers.allDone == 0 then before == t.states[k].buyers.bids
       else Untouched(t.states[k]) || Filtered(cfg.features, cfg.currencies, before, t.states[k].buyers.bids)
  }

  lemma BuyerStepBidsAt(cfg: Config, request: Request, run: Run, t: Trace, k: nat, before: BuyerBidsResponseMap)
    requires IsRun(request, run) && IsTrace(cfg, run, t) && k < |t.events| && BidsAt(cfg, t, k, before)
    requires var e := t.events[k]; e.NobodyToAsk? || e.SendNext? || e.SkipNext? || e.BidsArrive?
    ensures BidsAt(cfg, t, k + 1, BidsKnown(cfg, t.states[k], t.events[k]))
  {
    assert StepAt(cfg, t, k);
    OrphansAreNotNegative(request, run);
    ReachedKeepsInv(cfg, request, run, t, k);
    StillCollecting(cfg, run, t.states[k], t.events[k]);
    CollectingStepBids(cfg, t.states[k], t.events[k]);
    KnownTaken(cfg, t, k);
  }

  lemma OtherStepBidsAt(cfg: Config, request: Request, run: Run, t: Trace, k: nat, before: BuyerBidsResponseMap)
    requires IsRun(request, run) && IsTrace(cfg, run, t) && k < |t.events| && BidsAt(cfg, t, k, before)
    requires var e := t.events[k]; !(e.NobodyToAsk? || e.SendNext? || e.SkipNext? || e.BidsArrive?)
    ensures BidsAt(cfg, t, k + 1, before)
  {
    assert StepAt(cfg, t, k);
    ReachedKeepsInv(cfg, request, run, t, k);
    OtherStepBids(cfg, run, t.states[k], t.events[k]);
    NothingTaken(cfg, t, k, before);
  }

  lemma NoBidsAtStart(cfg: Config, run: Run, t: Trace)
    requires IsTrace(cfg, run, t)
    ensures BidsAt(cfg, t, 0, map[])
  {
  }

  lemma {:induction false} BidsSoFar(cfg: Config, request: Request, run: Run, t: Trace, k: nat)
    returns (before: BuyerBidsResponseMap)
    requires IsRun(request, run) && IsTrace(cfg, run, t) && k <= |t.events|
    ensures BidsAt(cfg, t, k, before)
  {
    hide BidsAt, BidsKnown, StepAt, IsRun;
    if k == 0 {
      before := map[];
      NoBidsAtStart(cfg, run, t);
    } else {
      before := BidsSoFar(cfg, request, run, t, k - 1);
      var e := t.events[k - 1];
      if e.NobodyToAsk? || e.SendNext? || e.SkipNext? || e.BidsArrive? {
        BuyerStepBidsAt(cfg, request, run, t, k - 1, before);
        before := BidsKnown(cfg, t.states[k - 1], e);
      } else {
        OtherStepBidsAt(cfg, request, run, t, k - 1, before);
      }
    }
  }

  /** Whose bids are sent for scoring: exactly those of the buyers whose answer was taken and has a bid of an enabled
      type in the buyer's own currency; and of such a buyer all its bids of both types in that currency, each as often
      as the buyer sent it. */
  lemma ScoredBidsAreTheBuyersOwn(
    cfg: Config, request: Request, run: Run, t: Trace, s: State, scored: ScoreRequest, buyer: string)
    requires IsRun(request, run) && Reaches(cfg, run, t, s) && scored in s.scoreRequests
    ensures buyer in scored.bids ==>
              HasBids(cfg.features, scored.bids[buyer]) &&
              exists response :: Taken(cfg, t, |t.events|, buyer, response)
    ensures forall response :: Taken(cfg, t, |t.events|, buyer, response) ==>
              && (buyer in scored.bids <==> HasOwnBids(cfg.features, cfg.currencies, buyer, response))
              && (buyer in scored.bids ==> OwnBidsOf(cfg.currencies, buyer, response, scored.bids[buyer]))
  {
    var before := BidsSoFar(cfg, request, run, t, |t.events|);
    ReachedKeepsInv(cfg, request, run, t, |t.events|);
    ReachedKeepsKAnon(cfg, request, run, t, |t.events|);
    assert scored.bids == s.buyers.bids && Filtered(cfg.features, cfg.currencies, before, scored.bids);
    FilteredMeans(cfg.features, cfg.currencies, before, scored.bids, buyer);
    if buyer in before {
      assert Taken(cfg, t, |t.events|, buyer, before[buyer]);
    }
  }

  // ---------- how a run without any bids ends ----------

  /** The status with which a step completes a buyer's task, if it completes one. */
  function StatusOfStep(cfg: Config, s: State, e: Event): Option<T.TaskStatus> {
    match e
    case SendNext(outcome, _) =>
      if IsCancelled(cfg, s) then Some(T.Cancelled)
      else if outcome == NoBuyerClient then Some(T.Skipped)
      else if outcome == SendFails then Some(T.Error)
      else None
    case SkipNext(_) => Some(T.Skipped)
    case BidsArrive(_, response, _) =>
      if IsCancelled(cfg, s) then Some(T.Cancelled)
      else if response == None then Some(T.Error)
      else if HasBids(cfg.features, response.value) then Some(T.Success)
      else Some(T.EmptyResponse)
    case _ => None
  }

  function StatusesSoFar(cfg: Config, t: Trace, k: nat): seq<T.TaskStatus>
    requires k <= |t.events| < |t.states|
  {
    if k == 0 then []
    else StatusesSoFar(cfg, t, k - 1) + ListOf(StatusOfStep(cfg, t.states[k - 1], t.events[k - 1]))
  }

  /** The tracker after a step that completes at most one task. */
  function Counted(counts: T.Counts, status: Option<T.TaskStatus>): T.Counts {
    match status case Some(value) => counts.Completed(value) case None => counts
  }

  lemma BidTaskTracker(cfg: Config, s: State, buyers: Buyers, status: T.TaskStatus, c: Choices)
    requires Collecting(cfg, s) && buyers.allDone == 0
    ensures BidTaskCompleted(cfg, s, buyers, status, c).buyers.tracker == buyers.tracker.Completed(status)
  {
    var next := s.(buyers := buyers.(tracker := buyers.tracker.Completed(status)));
    if next.buyers.tracker.pending == 0 {
      AllBidsDoneStep(cfg, next, next.buyers.tracker.AnyTaskSuccessfullyCompleted(), c);
    }
  }

  lemma SendTracker(cfg: Config, s: State, e: Event)
    requires Collecting(cfg, s) && e.SendNext? && s.buyers.toSolicit != []
    ensures FetchBid(cfg, s, e.outcome, e.c).buyers.tracker == Counted(s.buyers.tracker, StatusOfStep(cfg, s, e))
  {
    if StatusOfStep(cfg, s, e).Some? {
      BidTaskTracker(cfg, s, s.buyers.(toSolicit := s.buyers.toSolicit[1..]), StatusOfStep(cfg, s, e).value, e.c);
    }
  }

  lemma ArrivalTracker(cfg: Config, s: State, e: Event)
    requires Collecting(cfg, s) && e.BidsArrive? && e.k < |s.buyers.awaited|
    ensures OnFetchBidsDone(cfg, s, e.k, e.response, e.c).buyers.tracker ==
              Counted(s.buyers.tracker, StatusOfStep(cfg, s, e))
  {
    var received := Received(cfg, s, e.k, e.response);
    BidTaskTracker(cfg, s, received, FetchBidStatus(cfg, s, e.response), e.c);
  }

  lemma CollectingStepTracker(cfg: Config, s: State, e: Event)
    requires Collecting(cfg, s) && Enabled(cfg, s, e)
    requires e.NobodyToAsk? || e.SendNext? || e.SkipNext? || e.BidsArrive?
    ensures After(cfg, s, e).buyers.tracker == Counted(s.buyers.tracker, StatusOfStep(cfg, s, e))
  {
    if e.NobodyToAsk? {
      AllBidsDoneStep(cfg, s, true, e.c);
    } else if e.SendNext? {
      SendTracker(cfg, s, e);
    } else if e.SkipNext? {
      BidTaskTracker(cfg, s, s.buyers.(toSkip := s.buyers.toSkip - 1), T.Skipped, e.c);
    } else {
      ArrivalTracker(cfg, s, e);
    }
  }

  lemma StepTracker(cfg: Config, run: Run, s: State, e: Event)
    requires Orphans(run) >= 0 && Inv(cfg, run, s) && Enabled(cfg, s, e)
    ensures After(cfg, s, e).buyers.tracker == Counted(s.buyers.tracker, StatusOfStep(cfg, s, e))
  {
    if e.NobodyToAsk? || e.SendNext? || e.SkipNext? || e.BidsArrive? {
      StillCollecting(cfg, run, s, e);
      CollectingStepTracker(cfg, s, e);
    } else {
      OtherStepBids(cfg, run, s, e);
    }
  }

  ghost predicate TrackerMoves(cfg: Config, t: Trace, k: nat)
    requires k < |t.events| && |t.events| < |t.states|
  {
    t.states[k + 1].buyers.tracker == Counted(t.states[k].buyers.tracker, StatusOfStep(cfg, t.states[k], t.events[k]))
  }

  lemma TrackerAt(cfg: Config, request: Request, run: Run, t: Trace, k: nat)
    requires IsRun(request, run) && IsTrace(cfg, run, t) && k < |t.events|
    ensures TrackerMoves(cfg, t, k)
  {
    assert StepAt(cfg, t, k);
    OrphansAreNotNegative(request, run);
    ReachedKeepsInv(cfg, request, run, t, k);
    StepTracker(cfg, run, t.states[k], t.events[k]);
  }

  lemma CountedMore(counts: T.Counts, statuses: seq<T.TaskStatus>, status: Option<T.TaskStatus>)
    ensures T.CompletedAll(counts, statuses + ListOf(status)) == Counted(T.CompletedAll(counts, statuses), status)
  {
    if status.Some? {
      assert (statuses + [status.value])[..|statuses|] == statuses;
    } else {
      assert statuses + [] == statuses;
    }
  }

  lemma {:induction false} TrackerCounts(cfg: Config, t: Trace, n: nat, k: nat)
    requires k <= |t.events| < |t.states| && t.states[0].buyers.tracker == T.Tracking(n)
    requires forall j: nat :: j < |t.events| ==> TrackerMoves(cfg, t, j)
    ensures t.states[k].buyers.tracker == T.CompletedAll(T.Tracking(n), StatusesSoFar(cfg, t, k))
  {
    hide StatusOfStep, Counted;
    if k > 0 {
      TrackerCounts(cfg, t, n, k - 1);
      assert TrackerMoves(cfg, t, k - 1);
      CountedMore(T.Tracking(n), StatusesSoFar(cfg, t, k - 1),
        StatusOfStep(cfg, t.states[k - 1], t.events[k - 1]));
    }
  }

  /** The tracker has counted exactly the completions of the steps so far. */
  lemma TrackerCountsSteps(cfg: Config, request: Request, run: Run, t: Trace, k: nat)
    requires IsRun(request, run) && IsTrace(cfg, run, t) && k <= |t.events|
    ensures t.states[k].buyers.tracker == T.CompletedAll(T.Tracking(run.tracked), StatusesSoFar(cfg, t, k))
  {
    forall j: nat | j < |t.events| ensures TrackerMoves(cfg, t, j) {
      TrackerAt(cfg, request, run, t, j);
    }
    TrackerCounts(cfg, t, run.tracked, k);
  }

  // ---------- one completion per request ----------

  function BuyersOf(requests: seq<BidRequest>): seq<string> {
    if requests == [] then [] else [requests[0].buyer] + BuyersOf(requests[1..])
  }

  /** The buyer whose request the step completes. */
  function CompletedBuyer(cfg: Config, s: State, e: Event): Option<string> {
    match e
    case SendNext(_, _) =>
      if StatusOfStep(cfg, s, e).Some? && s.buyers.toSolicit != [] then Some(s.buyers.toSolicit[0].buyer) else None
    case BidsArrive(k, _, _) => if k < |s.buyers.awaited| then Some(s.buyers.awaited[k]) else None
    case _ => None
  }

  function CompletedSoFar(cfg: Config, t: Trace, k: nat): seq<string>
    requires k <= |t.events| < |t.states|
  {
    if k == 0 then []
    else CompletedSoFar(cfg, t, k - 1) + ListOf(CompletedBuyer(cfg, t.states[k - 1], t.events[k - 1]))
  }

  /** The requests of the buyers that are not completed, those waiting to be sent first. */
  function Outstanding(b: Buyers): multiset<string> {
    multiset(BuyersOf(b.toSolicit)) + multiset(b.awaited)
  }

  /** Completing a task changes nothing about who is still to be asked or awaited. */
  lemma BidTaskOutstanding(cfg: Config, s: State, buyers: Buyers, status: T.TaskStatus, c: Choices)
    requires Collecting(cfg, s) && buyers.allDone == 0
    ensures var next := BidTaskCompleted(cfg, s, buyers, status, c).buyers;
      next.toSolicit == buyers.toSolicit && next.toSkip == buyers.toSkip && next.awaited == buyers.awaited
  {
    var next := s.(buyers := buyers.(tracker := buyers.tracker.Completed(status)));
    if next.buyers.tracker.pending == 0 {
      AllBidsDoneStep(cfg, next, next.buyers.tracker.AnyTaskSuccessfullyCompleted(), c);
    }
  }

  lemma BuyersOfSplit(requests: seq<BidRequest>)
    requires requests != []
    ensures multiset(BuyersOf(requests)) == multiset{requests[0].buyer} + multiset(BuyersOf(requests[1..]))
  {
  }

  /** The step takes the completed buyer, if any, from those outstanding, and a skip takes one from the skips. */
  ghost predicate Completes(before: Buyers, after: Buyers, completed: Option<string>, skipped: nat) {
    && multiset(ListOf(completed)) + Outstanding(after) == Outstanding(before)
    && after.toSkip + skipped == before.toSkip
  }

  /** The first request waiting is sent: it is completed at once, or awaited. */
  lemma FirstTaken(before: Buyers, after: Buyers, completed: bool)
    requires before.toSolicit != [] && after.toSolicit == before.toSolicit[1..] && after.toSkip == before.toSkip
    requires after.awaited == before.awaited + if completed then [] else [before.toSolicit[0].buyer]
    ensures Completes(before, after, if completed then Some(before.toSolicit[0].buyer) else None, 0)
  {
    BuyersOfSplit(before.toSolicit);
    if completed {
      assert after.awaited == before.awaited;
    }
  }

  lemma NobodyTaken(before: Buyers, after: Buyers, skipped: nat)
    requires after.toSolicit == before.toSolicit && after.awaited == before.awaited
    requires after.toSkip + skipped == before.toSkip
    ensures Completes(before, after, None, skipped)
  {
  }

  lemma AwaitedTaken(before: Buyers, after: Buyers, k: nat)
    requires k < |before.awaited| && after.toSolicit == before.toSolicit && after.toSkip == before.toSkip
    requires after.awaited == before.awaited[..k] + before.awaited[k + 1..]
    ensures Completes(before, after, Some(before.awaited[k]), 0)
  {
    RemoveAt(before.awaited, k);
    assert multiset([before.awaited[k]]) == multiset{before.awaited[k]};
  }

  lemma SendCompletes(cfg: Config, s: State, e: Event)
    requires Collecting(cfg, s) && e.SendNext? && s.buyers.toSolicit != []
    ensures Completes(s.buyers, FetchBid(cfg, s, e.outcome, e.c).buyers, CompletedBuyer(cfg, s, e), 0)
  {
    var taken := s.buyers.(toSolicit := s.buyers.toSolicit[1..]);
    if StatusOfStep(cfg, s, e).Some? {
      BidTaskOutstanding(cfg, s, taken, StatusOfStep(cfg, s, e).value, e.c);
    }
    assert taken.awaited + [] == taken.awaited;
    FirstTaken(s.buyers, FetchBid(cfg, s, e.outcome, e.c).buyers, StatusOfStep(cfg, s, e).Some?);
  }

  lemma ArrivalCompletes(cfg: Config, s: State, e: Event)
    requires Collecting(cfg, s) && e.BidsArrive? && e.k < |s.buyers.awaited|
    ensures Completes(s.buyers, OnFetchBidsDone(cfg, s, e.k, e.response, e.c).buyers, CompletedBuyer(cfg, s, e), 0)
  {
    var received := Received(cfg, s, e.k, e.response);
    BidTaskOutstanding(cfg, s, received, FetchBidStatus(cfg, s, e.response), e.c);
    AwaitedTaken(s.buyers, OnFetchBidsDone(cfg, s, e.k, e.response, e.c).buyers, e.k);
  }

  lemma StepCompletes(cfg: Config, run: Run, s: State, e: Event)
    requires Orphans(run) >= 0 && Inv(cfg, run, s) && Enabled(cfg, s, e)
    ensures Completes(s.buyers, After(cfg, s, e).buyers, CompletedBuyer(cfg, s, e), One(e.SkipNext?))
  {
    hide Inv, Completes;
    if e.SendNext? {
      StillCollecting(cfg, run, s, e);
      SendCompletes(cfg, s, e);
    } else if e.BidsArrive? {
      StillCollecting(cfg, run, s, e);
      ArrivalCompletes(cfg, s, e);
    } else if e.SkipNext? {
      StillCollecting(cfg, run, s, e);
      BidTaskOutstanding(cfg, s, s.buyers.(toSkip := s.buyers.toSkip - 1), T.Skipped, e.c);
      NobodyTaken(s.buyers, After(cfg, s, e).buyers, 1);
    } else if e.NobodyToAsk? {
      StillCollecting(cfg, run, s, e);
      AllBidsDoneStep(cfg, s, true, e.c);
      NobodyTaken(s.buyers, After(cfg, s, e).buyers, 0);
    } else {
      OtherStepBids(cfg, run, s, e);
      NobodyTaken(s.buyers, s.buyers, 0);
    }
  }

  ghost predicate CompletesAt(cfg: Config, t: Trace, k: nat)
    requires k < |t.events| && |t.events| < |t.states|
  {
    Completes(t.states[k].buyers, t.states[k + 1].buyers,
      CompletedBuyer(cfg, t.states[k], t.events[k]), One(t.events[k].SkipNext?))
  }

  lemma StepCompletesAt(cfg: Config, request: Request, run: Run, t: Trace, k: nat)
    requires IsRun(request, run) && IsTrace(cfg, run, t) && k < |t.events|
    ensures CompletesAt(cfg, t, k)
  {
    assert StepAt(cfg, t, k);
    OrphansAreNotNegative(request, run);
    ReachedKeepsInv(cfg, request, run, t, k);
    StepCompletes(cfg, run, t.states[k], t.events[k]);
  }

  /** A step completes a task for a buyer's request, or for a skipped one. */
  ghost predicate CountsAt(cfg: Config, t: Trace, k: nat)
    requires k < |t.events| && |t.events| < |t.states|
  {
    |ListOf(StatusOfStep(cfg, t.states[k], t.events[k]))| ==
      |ListOf(CompletedBuyer(cfg, t.states[k], t.events[k]))| + One(t.events[k].SkipNext?)
  }

  lemma StepCountsAt(cfg: Config, run: Run, t: Trace, k: nat)
    requires IsTrace(cfg, run, t) && k < |t.events|
    ensures CountsAt(cfg, t, k)
  {
    assert StepAt(cfg, t, k);
  }

  lemma CompletedMore(
    completed: seq<string>, before: Buyers, after: Buyers, buyer: Option<string>, skipped: nat, all: multiset<string>)
    requires Completes(before, after, buyer, skipped) && multiset(completed) + Outstanding(before) == all
    ensures multiset(completed + ListOf(buyer)) + Outstanding(after) == all
  {
    assert multiset(completed + ListOf(buyer)) == multiset(completed) + multiset(ListOf(buyer));
  }

  lemma {:induction false} CompletionsAddUp(cfg: Config, t: Trace, k: nat)
    requires k <= |t.events| < |t.states|
    requires forall j: nat :: j < |t.events| ==> CompletesAt(cfg, t, j)
    ensures multiset(CompletedSoFar(cfg, t, k)) + Outstanding(t.states[k].buyers) == Outstanding(t.states[0].buyers)
  {
    hide Outstanding, Completes, CompletedBuyer;
    if k > 0 {
      CompletionsAddUp(cfg, t, k - 1);
      assert CompletesAt(cfg, t, k - 1);
      CompletedMore(CompletedSoFar(cfg, t, k - 1), t.states[k - 1].buyers, t.states[k].buyers,
        CompletedBuyer(cfg, t.states[k - 1], t.events[k - 1]), One(t.events[k - 1].SkipNext?),
        Outstanding(t.states[0].buyers));
    }
  }

  lemma {:induction false} StatusesAddUp(cfg: Config, t: Trace, k: nat)
    requires k <= |t.events| < |t.states|
    requires forall j: nat :: j < |t.events| ==> CompletesAt(cfg, t, j)
    requires forall j: nat :: j < |t.events| ==> CountsAt(cfg, t, j)
    ensures |StatusesSoFar(cfg, t, k)| + t.states[k].buyers.toSkip ==
              |CompletedSoFar(cfg, t, k)| + t.states[0].buyers.toSkip
  {
    hide CompletedBuyer, StatusOfStep, Outstanding;
    if k > 0 {
      StatusesAddUp(cfg, t, k - 1);
      assert CompletesAt(cfg, t, k - 1);
      assert CountsAt(cfg, t, k - 1);
    }
  }

  /** Every request has completed its task once or is still outstanding, buyer by buyer; the rest of the completions are
      those of the skipped requests. */
  lemma OneCompletionPerRequest(cfg: Config, request: Request, run: Run, t: Trace, k: nat)
    requires IsRun(request, run) && IsTrace(cfg, run, t) && k <= |t.events|
    ensures multiset(CompletedSoFar(cfg, t, k)) + Outstanding(t.states[k].buyers) == multiset(BuyersOf(run.solicited))
    ensures |StatusesSoFar(cfg, t, k)| + t.states[k].buyers.toSkip == |CompletedSoFar(cfg, t, k)| + run.skipped
  {
    forall j: nat | j < |t.events| ensures CompletesAt(cfg, t, j) {
      StepCompletesAt(cfg, request, run, t, j);
    }
    forall j: nat | j < |t.events| ensures CountsAt(cfg, t, j) {
      StepCountsAt(cfg, run, t, j);
    }
    CompletionsAddUp(cfg, t, k);
    StatusesAddUp(cfg, t, k);
  }

  /** The answer without any scoring: chaff, unless the response cannot be built or encrypted. */
  function ChaffStatus(c: Choices): Status {
    if c.responseBuilt && c.encrypted then OK else Internal
  }

  /** Finished empty-handed by a step with these choices: an error if the buyers' tasks say so, chaff otherwise. */
  ghost predicate EmptyHanded(run: Run, s: State, c: Choices) {
    s.finishes ==
      [if run.tracked > 0 && !s.buyers.tracker.AnyTaskSuccessfullyCompleted() then Internal else ChaffStatus(c)]
  }

  /** Step i completes the last buyer's task, or finds that there is nobody to ask. */
  ghost predicate EndsCollecting(t: Trace, i: nat)
    requires |t.events| < |t.states|
  {
    && i < |t.events| && t.states[i].buyers.allDone == 0 && t.states[i + 1].buyers.allDone == 1
    && (t.events[i].NobodyToAsk? || t.events[i].SendNext? || t.events[i].SkipNext? || t.events[i].BidsArrive?)
  }

  /** No buyer has answered with bids of an enabled type. */
  ghost predicate NoAnswers(cfg: Config, t: Trace, k: nat)
    requires k <= |t.events| < |t.states|
  {
    forall i, buyer, response :: 0 <= i < k ==> !IsAnswer(cfg, t.states[i], t.events[i], buyer, response)
  }

  /** A step of the buyers' part taken while the client has cancelled, or is just cancelling. */
  predicate NoticesCancellation(cfg: Config, s: State, e: Event) {
    && (e.NobodyToAsk? || e.SendNext? || e.SkipNext? || e.BidsArrive?)
    && cfg.enableCancellation && (s.clientCancelled || e.c.lateCancel)
  }

  ghost predicate NoCancellation(cfg: Config, t: Trace, k: nat)
    requires k <= |t.events| < |t.states|
  {
    forall i :: 0 <= i < k ==> !NoticesCancellation(cfg, t.states[i], t.events[i])
  }

  lemma AllBidsDoneEmptyHanded(cfg: Config, s: State, any: bool, c: Choices)
    requires Collecting(cfg, s) && s.buyers.bids == map[]
    requires cfg.enableCancellation ==> !s.clientCancelled && !c.lateCancel
    ensures var next := OnAllBidsDone(cfg, s, any, c);
      && Untouched(next) && next.buyers.allDone == 1
      && next.finishes == [if any then ChaffStatus(c) else Internal]
  {
  }

  /** The outcome of a step with these choices. */
  ghost predicate EmptyOrGivenUp(run: Run, next: State, c: Choices) {
    if next.buyers.allDone == 0 then next.buyers.bids == map[]
    else next.buyers.allDone == 1 && Untouched(next) && EmptyHanded(run, next, c)
  }

  lemma BidTaskEmptyHanded(cfg: Config, run: Run, s: State, buyers: Buyers, status: T.TaskStatus, c: Choices)
    requires Collecting(cfg, s) && buyers.allDone == 0 && buyers.bids == map[]
    requires run.tracked > 0 && (cfg.enableCancellation ==> !s.clientCancelled && !c.lateCancel)
    ensures EmptyOrGivenUp(run, BidTaskCompleted(cfg, s, buyers, status, c), c)
  {
    BidTaskTracker(cfg, s, buyers, status, c);
    var next := s.(buyers := buyers.(tracker := buyers.tracker.Completed(status)));
    if next.buyers.tracker.pending == 0 {
      AllBidsDoneEmptyHanded(cfg, next, next.buyers.tracker.AnyTaskSuccessfullyCompleted(), c);
    }
  }

  lemma CollectingStepEmptyHanded(cfg: Config, run: Run, s: State, e: Event)
    requires Orphans(run) >= 0 && Inv(cfg, run, s) && Enabled(cfg, s, e)
    requires e.NobodyToAsk? || e.SendNext? || e.SkipNext? || e.BidsArrive?
    requires s.buyers.bids == map[] && BidsKnown(cfg, s, e) == map[] && !NoticesCancellation(cfg, s, e)
    ensures EmptyOrGivenUp(run, After(cfg, s, e), e.c)
  {
    StillCollecting(cfg, run, s, e);
    match e
    case NobodyToAsk(c) => AllBidsDoneEmptyHanded(cfg, s, true, c);
    case SendNext(outcome, c) =>
      if StatusOfStep(cfg, s, e).Some? {
        BidTaskEmptyHanded(
          cfg, run, s, s.buyers.(toSolicit := s.buyers.toSolicit[1..]), StatusOfStep(cfg, s, e).value, c);
      }
    case SkipNext(c) => BidTaskEmptyHanded(cfg, run, s, s.buyers.(toSkip := s.buyers.toSkip - 1), T.Skipped, c);
    case BidsArrive(k, response, c) =>
      var received := Received(cfg, s, k, response);
      BidTaskEmptyHanded(cfg, run, s, received, FetchBidStatus(cfg, s, response), c);
  }

  /** Nothing can happen any more to a reactor that has finished without starting a lookup. */
  lemma UntouchedStays(cfg: Config, run: Run, s: State, e: Event)
    requires Orphans(run) >= 0 && Inv(cfg, run, s) && Enabled(cfg, s, e)
    requires s.buyers.allDone == 1 && Untouched(s)
    ensures e.ClientCancels?
  {
  }

  /** After k events: still collecting without any bids, or given up in event i. */
  ghost predicate EmptyHandedAt(run: Run, t: Trace, k: nat, i: nat)
    requires k <= |t.events| < |t.states|
  {
    var s := t.states[k];
    if s.buyers.allDone == 0 then s.buyers.bids == map[]
    else Untouched(s) && EndsCollecting(t, i) && EmptyHanded(run, s, t.events[i].c)
  }

  lemma BuyerStepEmptyHandedAt(cfg: Config, request: Request, run: Run, t: Trace, k: nat)
    requires IsRun(request, run) && IsTrace(cfg, run, t) && k < |t.events|
    requires NoAnswers(cfg, t, k + 1) && NoCancellation(cfg, t, k + 1)
    requires t.states[k].buyers.allDone == 0 && t.states[k].buyers.bids == map[]
    requires var e := t.events[k]; e.NobodyToAsk? || e.SendNext? || e.SkipNext? || e.BidsArrive?
    ensures EmptyHandedAt(run, t, k + 1, k)
  {
    var s, e := t.states[k], t.events[k];
    assert StepAt(cfg, t, k);
    OrphansAreNotNegative(request, run);
    ReachedKeepsInv(cfg, request, run, t, k);
    assert e.BidsArrive? && e.response.Some? ==> !IsAnswer(cfg, s, e, s.buyers.awaited[e.k], e.response.value);
    CollectingStepEmptyHanded(cfg, run, s, e);
  }

  lemma OtherStepEmptyHandedAt(cfg: Config, request: Request, run: Run, t: Trace, k: nat, i: nat)
    requires IsRun(request, run) && IsTrace(cfg, run, t) && k < |t.events| && EmptyHandedAt(run, t, k, i)
    requires var e := t.events[k];
      t.states[k].buyers.allDone != 0 || !(e.NobodyToAsk? || e.SendNext? || e.SkipNext? || e.BidsArrive?)
    ensures EmptyHandedAt(run, t, k + 1, i)
  {
    var s, e := t.states[k], t.events[k];
    assert StepAt(cfg, t, k);
    OrphansAreNotNegative(request, run);
    ReachedKeepsInv(cfg, request, run, t, k);
    if s.buyers.allDone == 0 {
      OtherStepBids(cfg, run, s, e);
    } else {
      UntouchedStays(cfg, run, s, e);
    }
  }

  lemma EmptyHandedAtStart(cfg: Config, run: Run, t: Trace)
    requires IsTrace(cfg, run, t)
    ensures EmptyHandedAt(run, t, 0, 0)
  {
  }

  lemma {:induction false} EmptyHandedSoFar(cfg: Config, request: Request, run: Run, t: Trace, k: nat)
    returns (i: nat)
    requires IsRun(request, run) && IsTrace(cfg, run, t) && k <= |t.events|
    requires NoAnswers(cfg, t, k) && NoCancellation(cfg, t, k)
    ensures EmptyHandedAt(run, t, k, i)
  {
    hide EmptyHanded, Untouched, EndsCollecting, IsAnswer, NoticesCancellation, StepAt, IsRun;
    i := 0;
    if k == 0 {
      EmptyHandedAtStart(cfg, run, t);
    } else {
      i := EmptyHandedSoFar(cfg, request, run, t, k - 1);
      var e := t.events[k - 1];
      if t.states[k - 1].buyers.allDone == 0 && (e.NobodyToAsk? || e.SendNext? || e.SkipNext? || e.BidsArrive?) {
        BuyerStepEmptyHandedAt(cfg, request, run, t, k - 1);
        i := k - 1;
      } else {
        OtherStepEmptyHandedAt(cfg, request, run, t, k - 1, i);
      }
    }
  }

  lemma {:induction false} NothingIsCancelled(cfg: Config, t: Trace, k: nat)
    requires k <= |t.events| < |t.states| && NoCancellation(cfg, t, k)
    ensures T.Cancelled !in StatusesSoFar(cfg, t, k)
  {
    if k > 0 {
      NothingIsCancelled(cfg, t, k - 1);
      assert !NoticesCancellation(cfg, t.states[k - 1], t.events[k - 1]);
    }
  }

  /** Every buyer's call failed. */
  predicate AllCallsFailed(statuses: seq<T.TaskStatus>) {
    statuses != [] && forall status :: status in statuses ==> status == T.Error
  }

  lemma VerdictWithoutCancellation(statuses: seq<T.TaskStatus>)
    requires T.Cancelled !in statuses
    ensures statuses != [] && !T.CompletedAll(T.Tracking(|statuses|), statuses).AnyTaskSuccessfullyCompleted() <==>
            AllCallsFailed(statuses)
  {
    if statuses != [] {
      T.FiresOnceWithTheSameVerdict(|statuses|, statuses, 0);
      assert statuses[0] in statuses;
    }
  }

  /** Without bids, and unless the client cancelled before the bids were done, the RPC fails if every buyer's call
      failed. If some buyer was skipped or answered without bids it is answered with chaff, unless the step that ends
      the collection cannot build or encrypt the response. */
  lemma RunWithoutBids(cfg: Config, request: Request, run: Run, t: Trace, s: State) returns (i: nat)
    requires IsRun(request, run) && Reaches(cfg, run, t, s) && s.buyers.allDone == 1
    requires NoAnswers(cfg, t, |t.events|) && NoCancellation(cfg, t, |t.events|)
    ensures s.scoreRequests == [] && |StatusesSoFar(cfg, t, |t.events|)| == run.tracked
    ensures EndsCollecting(t, i)
    ensures s.finishes ==
              [if AllCallsFailed(StatusesSoFar(cfg, t, |t.events|)) then Internal else ChaffStatus(t.events[i].c)]
  {
    var statuses := StatusesSoFar(cfg, t, |t.events|);
    i := EmptyHandedSoFar(cfg, request, run, t, |t.events|);
    ReachedKeepsInv(cfg, request, run, t, |t.events|);
    TrackerCountsSteps(cfg, request, run, t, |t.events|);
    T.CountsAreMultiplicities(run.tracked, statuses);
    NothingIsCancelled(cfg, t, |t.events|);
    VerdictWithoutCancellation(statuses);
  }
}
