/** GenerateBidsBinaryReactor: one execution per interest group, all in parallel, and one collection at the end. */
module BinaryBidReactor {
  import opened Sequences
  import opened BidTypes
  import opened Cancellation
  import T = TaskTracker

  datatype Status = OK | Cancelled | Internal

  /** What IsValidProtectedAudienceBid says; a bid that is InvalidArgument is a zero bid. */
  datatype Validation = Valid | InvalidArgument | PermissionDenied | OtherError

  /** How the execution for one interest group turns out, whenever its callback runs. */
  datatype Outcome = NotDispatched | Failed | Returned(bids: seq<AdWithBid>)

  datatype Environment = Environment(
    interestGroups: seq<string>, outcomes: seq<Outcome>, validate: AdWithBid -> Validation,
    enableCancellation: bool, encrypted: bool)

  datatype Counters = Counters(failedToBid: nat, received: nat, zeroBids: nat, rejectedComponentBids: nat)

  // ---------- what the schedule must not influence ----------

  /** Only the first bid of a group is taken over, under the group's own name. */
  function ParseProtectedAudienceBids(bids: seq<AdWithBid>, igName: string): seq<AdWithBid> {
    if bids == [] then [] else [bids[0].(interestGroupName := igName)]
  }

  function AdsOf(env: Environment, i: nat): seq<AdWithBid>
    requires i < |env.interestGroups| == |env.outcomes|
  {
    match env.outcomes[i]
    case Returned(bids) => ParseProtectedAudienceBids(bids, env.interestGroups[i])
    case _ => []
  }

  function AdsByIg(env: Environment): seq<seq<AdWithBid>>
    requires |env.interestGroups| == |env.outcomes|
  {
    seq(|env.interestGroups|, i requires 0 <= i < |env.interestGroups| => AdsOf(env, i))
  }

  /** All groups one after the other, in index order. */
  function Flatten(groups: seq<seq<AdWithBid>>): seq<AdWithBid> {
    if groups == [] then [] else Flatten(groups[..|groups| - 1]) + groups[|groups| - 1]
  }

  function Response(env: Environment, groups: seq<seq<AdWithBid>>): seq<AdWithBid> {
    KeepIf(ad => env.validate(ad) == Valid, Flatten(groups))
  }

  function Count(env: Environment, validation: Validation, ads: seq<AdWithBid>): nat {
    |KeepIf(ad => env.validate(ad) == validation, ads)|
  }

  function CountersFor(env: Environment, groups: seq<seq<AdWithBid>>): Counters {
    var ads := Flatten(groups);
    Counters(
      |KeepIf((group: seq<AdWithBid>) => group == [], groups)|, |ads|,
      Count(env, InvalidArgument, ads), Count(env, PermissionDenied, ads))
  }

  /** Every execution failed or could not be dispatched. */
  predicate AllFailed(env: Environment) {
    forall i :: 0 <= i < |env.outcomes| ==> !env.outcomes[i].Returned?
  }

  lemma FlattenMore(groups: seq<seq<AdWithBid>>, k: nat)
    requires k < |groups|
    ensures Flatten(groups[..k + 1]) == Flatten(groups[..k]) + groups[k]
  {
    assert groups[..k + 1][..k] == groups[..k];
  }

  lemma {:induction false} FlattenMember(groups: seq<seq<AdWithBid>>, ad: AdWithBid)
    ensures ad in Flatten(groups) <==> exists i :: 0 <= i < |groups| && ad in groups[i]
  {
    if groups != [] {
      FlattenMember(groups[..|groups| - 1], ad);
    }
  }

  /** Group i answered with a bid. */
  predicate Bids(env: Environment, i: nat) {
    i < |env.outcomes| && env.outcomes[i].Returned? && env.outcomes[i].bids != []
  }

  function BiddingGroups(env: Environment, n: nat): set<nat> {
    set i: nat | i < n && Bids(env, i)
  }

  lemma BiddingGroupsMore(env: Environment, i: nat)
    ensures |BiddingGroups(env, i + 1)| == |BiddingGroups(env, i)| + if Bids(env, i) then 1 else 0
  {
    assert BiddingGroups(env, i + 1) == BiddingGroups(env, i) + if Bids(env, i) then {i} else {};
  }

  lemma GroupWithoutBid(env: Environment, i: nat)
    requires |env.interestGroups| == |env.outcomes| && i < |env.outcomes|
    ensures AdsByIg(env)[i] == [] <==> !Bids(env, i)
    ensures |AdsByIg(env)[i]| == if Bids(env, i) then 1 else 0
  {
  }

  lemma CountedMore(env: Environment, groups: seq<seq<AdWithBid>>, i: nat)
    requires i < |groups|
    ensures |KeepIf((group: seq<AdWithBid>) => group == [], groups[..i + 1])| ==
              |KeepIf((group: seq<AdWithBid>) => group == [], groups[..i])| + if groups[i] == [] then 1 else 0
    ensures |Flatten(groups[..i + 1])| == |Flatten(groups[..i])| + |groups[i]|
  {
    assert groups[..i + 1] == groups[..i] + [groups[i]];
    KeepIfSnoc((group: seq<AdWithBid>) => group == [], groups[..i], groups[i]);
    FlattenMore(groups, i);
  }

  /** A group without a bid is counted as failed, one with a bid has it received. */
  lemma {:induction false} EveryGroupIsCounted(env: Environment, n: nat)
    requires |env.interestGroups| == |env.outcomes| && n <= |env.outcomes|
    ensures |KeepIf((group: seq<AdWithBid>) => group == [], AdsByIg(env)[..n])| + |BiddingGroups(env, n)| == n
    ensures |Flatten(AdsByIg(env)[..n])| == |BiddingGroups(env, n)|
  {
    if n == 0 {
      assert BiddingGroups(env, 0) == {};
    } else {
      EveryGroupIsCounted(env, n - 1);
      CountedMore(env, AdsByIg(env), n - 1);
      GroupWithoutBid(env, n - 1);
      BiddingGroupsMore(env, n - 1);
    }
  }

  /** Every bid gets one verdict. */
  lemma {:induction false} VerdictsPartition(env: Environment, ads: seq<AdWithBid>)
    ensures |KeepIf(ad => env.validate(ad) == Valid, ads)| + Count(env, InvalidArgument, ads) +
            Count(env, PermissionDenied, ads) + Count(env, OtherError, ads) == |ads|
  {
    if ads != [] {
      VerdictsPartition(env, ads[1..]);
    }
  }

  /** The accounts of a finished collection: the groups are those that failed to bid and those whose bid was received,
      and what was received is in the response, a zero bid, rejected by the component rule, or otherwise invalid. */
  ghost predicate Balanced(env: Environment, rawResponse: seq<AdWithBid>, counters: Counters)
    requires |env.interestGroups| == |env.outcomes|
  {
    var bidding := |set i: nat | i < |env.outcomes| && env.outcomes[i].Returned? && env.outcomes[i].bids != []|;
    && counters.failedToBid + bidding == |env.interestGroups|
    && counters.received == bidding
    && counters.zeroBids == Count(env, InvalidArgument, Flatten(AdsByIg(env)))
    && counters.rejectedComponentBids == Count(env, PermissionDenied, Flatten(AdsByIg(env)))
    && counters.received == |rawResponse| + counters.zeroBids + counters.rejectedComponentBids +
                            Count(env, OtherError, Flatten(AdsByIg(env)))
  }

  lemma CollectionIsBalanced(env: Environment)
    requires |env.interestGroups| == |env.outcomes|
    ensures Balanced(env, Response(env, AdsByIg(env)), CountersFor(env, AdsByIg(env)))
  {
    var n := |env.outcomes|;
    EveryGroupIsCounted(env, n);
    assert AdsByIg(env)[..n] == AdsByIg(env);
    VerdictsPartition(env, Flatten(AdsByIg(env)));
    assert BiddingGroups(env, n) ==
      set i: nat | i < |env.outcomes| && env.outcomes[i].Returned? && env.outcomes[i].bids != [];
  }

  /** A bid is in the response iff it is the first of some group that answered, renamed to it, and valid. */
  lemma ResponseMember(env: Environment, ad: AdWithBid)
    requires |env.interestGroups| == |env.outcomes|
    ensures ad in Response(env, AdsByIg(env)) <==>
              && env.validate(ad) == Valid
              && exists i :: 0 <= i < |env.outcomes| && env.outcomes[i].Returned? && env.outcomes[i].bids != [] &&
                   ad == env.outcomes[i].bids[0].(interestGroupName := env.interestGroups[i])
  {
    KeepIfMember(x => env.validate(x) == Valid, Flatten(AdsByIg(env)));
    FlattenMember(AdsByIg(env), ad);
    forall i | 0 <= i < |env.outcomes|
      ensures ad in AdsByIg(env)[i] <==>
                env.outcomes[i].Returned? && env.outcomes[i].bids != [] &&
                ad == env.outcomes[i].bids[0].(interestGroupName := env.interestGroups[i])
    {
    }
  }

  // ---------- the reactor ----------

  /** Dispatched, and its callback is not outstanding. */
  predicate IsDone(next: nat, inFlight: set<nat>, i: nat) {
    i < next && i !in inFlight
  }

  function StatusOf(outcome: Outcome): T.TaskStatus {
    match outcome
    case Returned(bids) => if bids == [] then T.EmptyResponse else T.Success
    case _ => T.Error
  }

  /** The tracker as far as the final verdict needs it. */
  ghost predicate Tracked(env: Environment, next: nat, inFlight: set<nat>, t: T.Counts) {
    && next <= |env.outcomes|
    && t.pending == |env.outcomes| - next + |inFlight|
    && t.skipped == 0 && t.cancelled == 0
    && (t.successful > 0 <==>
          exists i :: 0 <= i < |env.outcomes| && IsDone(next, inFlight, i) && Bids(env, i))
    && (t.empty > 0 <==>
          exists i :: 0 <= i < |env.outcomes| && IsDone(next, inFlight, i) && env.outcomes[i] == Returned([]))
    && (t.error > 0 <==>
          exists i :: 0 <= i < |env.outcomes| && IsDone(next, inFlight, i) && !env.outcomes[i].Returned?)
  }

  /** What the groups have written; a group writes only its own slot. */
  ghost predicate Written(env: Environment, next: nat, inFlight: set<nat>, slots: seq<seq<AdWithBid>>) {
    && |env.interestGroups| == |env.outcomes| == |slots|
    && forall i: nat :: i < |slots| ==> slots[i] == if IsDone(next, inFlight, i) then AdsOf(env, i) else []
  }

  /** Group i has just completed. */
  lemma TrackOneMore(
    env: Environment, next: nat, inFlight: set<nat>, laterNext: nat, laterInFlight: set<nat>, t: T.Counts, i: nat)
    requires Tracked(env, next, inFlight, t) && i < |env.outcomes| && laterNext <= |env.outcomes|
    requires |laterInFlight| - laterNext == |inFlight| - next - 1
    requires forall k: nat :: IsDone(laterNext, laterInFlight, k) <==> IsDone(next, inFlight, k) || k == i
    ensures Tracked(env, laterNext, laterInFlight, t.Completed(StatusOf(env.outcomes[i])))
  {
    assert IsDone(laterNext, laterInFlight, i);
  }

  /** Dispatching a group that will answer later changes nothing yet. */
  lemma DispatchedNotDone(env: Environment, next: nat, inFlight: set<nat>, t: T.Counts, slots: seq<seq<AdWithBid>>)
    requires Tracked(env, next, inFlight, t) && Written(env, next, inFlight, slots)
    requires next < |env.outcomes| && next !in inFlight
    ensures Tracked(env, next + 1, inFlight + {next}, t) && Written(env, next + 1, inFlight + {next}, slots)
  {
    assert forall k: nat :: IsDone(next + 1, inFlight + {next}, k) <==> IsDone(next, inFlight, k);
  }

  /** A group that could not be dispatched leaves its slot empty. */
  lemma NotDispatchedWritesNothing(env: Environment, next: nat, inFlight: set<nat>, slots: seq<seq<AdWithBid>>)
    requires Written(env, next, inFlight, slots) && next < |env.outcomes| && env.outcomes[next] == NotDispatched
    ensures Written(env, next + 1, inFlight, slots)
  {
  }

  lemma AllTracked(env: Environment, t: T.Counts)
    requires Tracked(env, |env.outcomes|, {}, t) && |env.outcomes| > 0
    ensures t.AnyTaskSuccessfullyCompleted() <==> !AllFailed(env)
  {
    assert forall i: nat :: i < |env.outcomes| ==> IsDone(|env.outcomes|, {}, i);
    assert IsDone(|env.outcomes|, {}, 0);
    assert forall i: nat :: i < |env.outcomes| && env.outcomes[i].Returned? ==>
      Bids(env, i) || env.outcomes[i] == Returned([]);
  }

  /** The calls of Finish at the end of a run with this status: a failed encryption finishes the RPC by itself, and then
      the reactor finishes it again. */
  function Ending(env: Environment, status: Status): seq<Status> {
    if env.encrypted then [status] else [Internal, Internal]
  }

  const NO_COUNTERS := Counters(0, 0, 0, 0)

  /** Everything about the result but a cancellation is fixed by the outcomes alone. */
  ghost predicate IsResult(
    env: Environment, finishes: seq<Status>, rawResponse: seq<AdWithBid>, counters: Counters)
    requires |env.interestGroups| == |env.outcomes|
  {
    if AllFailed(env) then finishes == Ending(env, Internal) && rawResponse == [] && counters == NO_COUNTERS
    else
      || (&& env.enableCancellation && finishes == Ending(env, Cancelled)
          && rawResponse == [] && counters == NO_COUNTERS)
      || (&& finishes == Ending(env, OK)
          && rawResponse == Response(env, AdsByIg(env))
          && counters == CountersFor(env, AdsByIg(env)))
  }

  /** Unless the bids were never collected, the accounts balance. */
  lemma ResultIsBalanced(env: Environment, finishes: seq<Status>, rawResponse: seq<AdWithBid>, counters: Counters)
    requires |env.interestGroups| == |env.outcomes| && IsResult(env, finishes, rawResponse, counters)
    ensures counters == NO_COUNTERS || Balanced(env, rawResponse, counters)
  {
    CollectionIsBalanced(env);
  }

  class GenerateBidsBinaryReactor {
    const env: Environment
    const asyncTaskTracker: T.AsyncTaskTracker
    var adsWithBidsByIg: seq<seq<AdWithBid>>
    var rawResponse: seq<AdWithBid>
    var counters: Counters
    var finishes: seq<Status>

    constructor (env: Environment)
      requires |env.interestGroups| == |env.outcomes|
      ensures this.env == env && fresh(asyncTaskTracker)
      ensures rawResponse == [] && finishes == [] && counters == NO_COUNTERS
    {
      this.env := env;
      asyncTaskTracker := new T.AsyncTaskTracker(|env.interestGroups|);
      adsWithBidsByIg, rawResponse, counters, finishes := [], [], NO_COUNTERS, [];
    }

    method EncryptResponseAndFinish(status: Status)
      modifies `finishes
      ensures finishes == old(finishes) + Ending(env, status)
    {
      if env.encrypted {
        finishes := finishes + [status];
      } else {
        finishes := finishes + [Internal];
        finishes := finishes + [Internal];
      }
    }

    /** One group's bids: the valid ones go to the response, the others are only counted. */
    method CollectGroup(group: seq<AdWithBid>, ghost before: seq<AdWithBid>)
      requires rawResponse == KeepIf(ad => env.validate(ad) == Valid, before)
      requires counters.received == |before|
      requires counters.zeroBids == Count(env, InvalidArgument, before)
      requires counters.rejectedComponentBids == Count(env, PermissionDenied, before)
      modifies `rawResponse, `counters
      ensures rawResponse == KeepIf(ad => env.validate(ad) == Valid, before + group)
      ensures counters == Counters(old(counters).failedToBid, |before + group|,
                            Count(env, InvalidArgument, before + group), Count(env, PermissionDenied, before + group))
    {
      ghost var seen := before;
      assert before + group[..0] == before;
      for k := 0 to |group|
        invariant seen == before + group[..k]
        invariant rawResponse == KeepIf(ad => env.validate(ad) == Valid, seen)
        invariant counters == Counters(old(counters).failedToBid, |seen|, Count(env, InvalidArgument, seen),
                                Count(env, PermissionDenied, seen))
      {
        var ad := group[k];
        KeepIfSnoc(x => env.validate(x) == Valid, seen, ad);
        KeepIfSnoc(x => env.validate(x) == InvalidArgument, seen, ad);
        KeepIfSnoc(x => env.validate(x) == PermissionDenied, seen, ad);
        seen := seen + [ad];
        assert seen == before + group[..k + 1];
        counters := counters.(received := counters.received + 1);
        var validation := env.validate(ad);
        if validation != Valid {
          if validation == InvalidArgument {
            counters := counters.(zeroBids := counters.zeroBids + 1);
          } else if validation == PermissionDenied {
            counters := counters.(rejectedComponentBids := counters.rejectedComponentBids + 1);
          }
        } else {
          rawResponse := rawResponse + [ad];
        }
      }
      assert group[..|group|] == group;
    }

    /** The groups in index order; an empty one counts as failed to bid. */
    method CollectBids()
      requires rawResponse == [] && counters == NO_COUNTERS
      modifies `rawResponse, `counters
      ensures rawResponse == Response(env, adsWithBidsByIg) && counters == CountersFor(env, adsWithBidsByIg)
    {
      var groups := adsWithBidsByIg;
      for k := 0 to |groups|
        invariant rawResponse == Response(env, groups[..k])
        invariant counters == CountersFor(env, groups[..k])
      {
        ghost var before := Flatten(groups[..k]);
        FlattenMore(groups, k);
        assert groups[..k + 1] == groups[..k] + [groups[k]];
        KeepIfSnoc((group: seq<AdWithBid>) => group == [], groups[..k], groups[k]);
        if groups[k] == [] {
          assert before + groups[k] == before;
          counters := counters.(failedToBid := counters.failedToBid + 1);
        } else {
          CollectGroup(groups[k], before);
        }
      }
      assert groups[..|groups|] == groups;
    }

    method OnAllBidsDone(anySuccessfulBids: bool)
      requires |env.interestGroups| == |env.outcomes| && adsWithBidsByIg == AdsByIg(env)
      requires anySuccessfulBids <==> !AllFailed(env)
      requires finishes == [] && rawResponse == [] && counters == NO_COUNTERS
      modifies `rawResponse, `counters, `finishes
      ensures IsResult(env, finishes, rawResponse, counters)
    {
      if !anySuccessfulBids {
        EncryptResponseAndFinish(Internal);
        return;
      }
      var cancelled := IsCancelled(env.enableCancellation);
      if cancelled {
        EncryptResponseAndFinish(Cancelled);
        return;
      }
      CollectBids();
      EncryptResponseAndFinish(OK);
    }

    /** Group i completes; next and inFlight say where the others are afterwards. The last one collects the bids. */
    method TaskCompleted(status: T.TaskStatus, ghost next: nat, ghost inFlight: set<nat>)
      requires Written(env, next, inFlight, adsWithBidsByIg)
      requires Tracked(env, next, inFlight, asyncTaskTracker.View().Completed(status)) && |env.outcomes| > 0
      requires finishes == [] && rawResponse == [] && counters == NO_COUNTERS
      modifies asyncTaskTracker, `rawResponse, `counters, `finishes
      ensures Tracked(env, next, inFlight, asyncTaskTracker.View())
      ensures if next == |env.outcomes| && inFlight == {} then IsResult(env, finishes, rawResponse, counters)
              else finishes == [] && rawResponse == [] && counters == NO_COUNTERS
    {
      var fired := asyncTaskTracker.TaskCompleted(status);
      if fired.Some? {
        AllTracked(env, asyncTaskTracker.View());
        assert adsWithBidsByIg == AdsByIg(env);
        OnAllBidsDone(fired.value);
      }
    }

    /** The callback of group i: it writes its own slot and completes its task. */
    method BidsReturned(i: nat, ghost next: nat, ghost inFlight: set<nat>)
      requires i < |env.outcomes| && env.outcomes[i] != NotDispatched && IsDone(next, inFlight, i)
      requires Written(env, next, inFlight + {i}, adsWithBidsByIg)
      requires Tracked(env, next, inFlight, asyncTaskTracker.View().Completed(StatusOf(env.outcomes[i])))
      requires finishes == [] && rawResponse == [] && counters == NO_COUNTERS
      modifies this, asyncTaskTracker
      ensures Written(env, next, inFlight, adsWithBidsByIg)
      ensures Tracked(env, next, inFlight, asyncTaskTracker.View())
      ensures if next == |env.outcomes| && inFlight == {} then IsResult(env, finishes, rawResponse, counters)
              else finishes == [] && rawResponse == [] && counters == NO_COUNTERS
    {
      match env.outcomes[i]
      case Failed => TaskCompleted(T.Error, next, inFlight);
      case Returned(bids) =>
        if bids == [] {
          TaskCompleted(T.EmptyResponse, next, inFlight);
        } else {
          adsWithBidsByIg := adsWithBidsByIg[i := ParseProtectedAudienceBids(bids, env.interestGroups[i])];
          TaskCompleted(T.Success, next, inFlight);
        }
    }

    /** Between two events: who has completed has been recorded, and the end of it all is the result. */
    ghost predicate Progress(next: nat, inFlight: set<nat>)
      reads this, asyncTaskTracker
    {
      && Written(env, next, inFlight, adsWithBidsByIg)
      && Tracked(env, next, inFlight, asyncTaskTracker.View())
      && (forall i :: i in inFlight ==> i < next && env.outcomes[i] != NotDispatched)
      && (if next > 0 && next == |env.outcomes| && inFlight == {}
          then IsResult(env, finishes, rawResponse, counters)
          else finishes == [] && rawResponse == [] && counters == NO_COUNTERS)
    }

    /** ExecuteForInterestGroup: a group that cannot be dispatched completes at once. */
    method ExecuteForInterestGroup(next: nat, inFlight: set<nat>) returns (waiting: set<nat>)
      requires Progress(next, inFlight) && next < |env.outcomes|
      modifies this, asyncTaskTracker
      ensures Progress(next + 1, waiting)
    {
      hide Written, Tracked, IsResult;
      if env.outcomes[next] == NotDispatched {
        TrackOneMore(env, next, inFlight, next + 1, inFlight, asyncTaskTracker.View(), next);
        NotDispatchedWritesNothing(env, next, inFlight, adsWithBidsByIg);
        TaskCompleted(T.Error, next + 1, inFlight);
        waiting := inFlight;
      } else {
        DispatchedNotDone(env, next, inFlight, asyncTaskTracker.View(), adsWithBidsByIg);
        waiting := inFlight + {next};
      }
    }

    method RunCallback(i: nat, ghost next: nat, ghost inFlight: set<nat>)
      requires Progress(next, inFlight) && i in inFlight
      modifies this, asyncTaskTracker
      ensures Progress(next, inFlight - {i})
    {
      TrackOneMore(env, next, inFlight, next, inFlight - {i}, asyncTaskTracker.View(), i);
      assert inFlight - {i} + {i} == inFlight;
      BidsReturned(i, next, inFlight - {i});
    }

    /** Dispatches the groups in order; the callbacks of those dispatched run whenever they like. */
    method Execute()
      requires |env.interestGroups| == |env.outcomes|
      requires finishes == [] && rawResponse == [] && counters == NO_COUNTERS
      modifies this, asyncTaskTracker
      ensures || (env.enableCancellation && finishes == Ending(env, Cancelled) && rawResponse == [])
              || (if env.interestGroups == [] then finishes == []
                  else IsResult(env, finishes, rawResponse, counters))
      ensures counters == NO_COUNTERS || Balanced(env, rawResponse, counters)
      ensures env.interestGroups != [] ==> |finishes| == if env.encrypted then 1 else 2
      ensures env.interestGroups != [] && env.encrypted && Cancelled !in finishes ==>
                finishes == [if exists i :: 0 <= i < |env.outcomes| && env.outcomes[i].Returned? then OK else Internal]
      ensures Cancelled in finishes ==> env.enableCancellation
      ensures !env.encrypted ==> forall status :: status in finishes ==> status == Internal
    {
      var cancelled := IsCancelled(env.enableCancellation);
      if cancelled {
        EncryptResponseAndFinish(Cancelled);
        return;
      }
      var igCount := |env.interestGroups|;
      asyncTaskTracker.SetNumTasksToTrack(igCount);
      adsWithBidsByIg := seq(igCount, _ => []);
      var next, inFlight: set<nat> := 0, {};
      while next < igCount || inFlight != {}
        invariant next <= igCount && Progress(next, inFlight)
        decreases igCount - next, |inFlight|
      {
        var callbackFirst: bool := *;
        if inFlight != {} && (next == igCount || callbackFirst) {
          var i := Pick(inFlight);
          RunCallback(i, next, inFlight);
          inFlight := inFlight - {i};
        } else {
          inFlight := ExecuteForInterestGroup(next, inFlight);
          next := next + 1;
        }
      }
      if igCount > 0 {
        ResultIsBalanced(env, finishes, rawResponse, counters);
      }
    }
  }
}
