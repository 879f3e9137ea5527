/** ProtectedAppSignalsGenerateBidsReactor: retrieve ads, generate bids, pack their egress payloads, finish once. */
module PasBidReactor {
  import opened Sequences
  import opened BidTypes
  import opened EgressFeatures
  import opened EgressPacking
  import opened EgressDecoding
  import opened EgressSchemaCache
  import opened Cancellation
  import Automaton

  // ---------- the order of calls, callbacks and Finish ----------

  datatype Status = OK | Cancelled | Internal | OtherError(code: nat)

  /** What a failed absl::Status carries. */
  type ErrorStatus = status: Status | status != OK witness Internal

  datatype Event =
    | PrepareDispatched
    | PrepareReturned
    | RetrievalCalled
    | RetrievalReturned
    | MetadataCalled
    | MetadataReturned
    | GenerateBidDispatched
    | GenerateBidReturned
    | Finished(status: Status)

  datatype Stage =
    | StartContextual
    | StartNonContextual
    | Preparing
    | Prepared
    | Retrieving
    | LookingUp
    | AdsKnown
    | Bidding
    | BidsKnown
    | Done
    | FinishedTwice

  function Next(stage: Stage, event: Event): Option<Stage> {
    match (stage, event)
    case (StartNonContextual, PrepareDispatched) => Some(Preparing)
    case (Preparing, PrepareReturned) => Some(Prepared)
    case (Prepared, RetrievalCalled) => Some(Retrieving)
    case (Retrieving, RetrievalReturned) => Some(AdsKnown)
    case (StartContextual, MetadataCalled) => Some(LookingUp)
    case (LookingUp, MetadataReturned) => Some(AdsKnown)
    case (AdsKnown, GenerateBidDispatched) => Some(Bidding)
    case (Bidding, GenerateBidReturned) => Some(BidsKnown)
    case (Done, Finished(_)) => Some(FinishedTwice)
    case (Done, _) => None
    case (FinishedTwice, _) => None
    case (_, Finished(_)) => Some(Done)
    case _ => None
  }

  function StageAfter(contextual: bool, log: seq<Event>): Option<Stage> {
    Automaton.After(Next, if contextual then StartContextual else StartNonContextual, log)
  }

  function FinishCalls(log: seq<Event>): nat {
    |KeepIf((event: Event) => event.Finished?, log)|
  }

  /** The stage of a log tells how often Finish has been called. */
  lemma {:induction false} FinishCallsByStage(contextual: bool, log: seq<Event>)
    requires StageAfter(contextual, log).Some?
    ensures FinishCalls(log) == match StageAfter(contextual, log).value
              case Done => 1
              case FinishedTwice => 2
              case _ => 0
  {
    if log != [] {
      var front, last := log[..|log| - 1], log[|log| - 1];
      FinishCallsByStage(contextual, front);
      assert log == front + [last];
      KeepIfSnoc((event: Event) => event.Finished?, front, last);
    }
  }

  /** A log that reaches Done finishes the RPC exactly once, as its last act. */
  lemma FinishesExactlyOnce(contextual: bool, log: seq<Event>)
    requires StageAfter(contextual, log) == Some(Done)
    ensures log != [] && log[|log| - 1].Finished?
    ensures forall k :: 0 <= k < |log| - 1 ==> !log[k].Finished?
  {
    var front := log[..|log| - 1];
    FinishCallsByStage(contextual, front);
    KeepIfMember((event: Event) => event.Finished?, front);
    forall k | 0 <= k < |log| - 1 ensures !log[k].Finished? {
      assert front[k] in front;
    }
  }

  /** The event that leads into a stage, and the stage before it. */
  lemma CameFrom(contextual: bool, log: seq<Event>, k: nat)
    requires k <= |log| && StageAfter(contextual, log[..k]).Some?
    ensures var stage := StageAfter(contextual, log[..k]).value;
      var last := if k == 0 then None else Some(log[k - 1]);
      var before := if k == 0 then None else StageAfter(contextual, log[..k - 1]);
      && (stage == StartContextual ==> k == 0 && contextual)
      && (stage == StartNonContextual ==> k == 0 && !contextual)
      && (stage == Preparing ==> last == Some(PrepareDispatched) && before == Some(StartNonContextual))
      && (stage == Prepared ==> last == Some(PrepareReturned) && before == Some(Preparing))
      && (stage == Retrieving ==> last == Some(RetrievalCalled) && before == Some(Prepared))
      && (stage == LookingUp ==> last == Some(MetadataCalled) && before == Some(StartContextual))
      && (stage == AdsKnown ==>
            || (last == Some(RetrievalReturned) && before == Some(Retrieving))
            || (last == Some(MetadataReturned) && before == Some(LookingUp)))
  {
    if k > 0 {
      assert log[..k][..k - 1] == log[..k - 1];
    }
  }

  /** The log knows only the calls of its own kind of request. */
  lemma {:induction false} CallsOfTheKind(contextual: bool, log: seq<Event>)
    requires StageAfter(contextual, log).Some?
    ensures contextual ==> PrepareDispatched !in log && RetrievalCalled !in log
    ensures !contextual ==> MetadataCalled !in log
    ensures StageAfter(contextual, log).value in
              (if contextual then {StartContextual, LookingUp, AdsKnown, Bidding, BidsKnown, Done, FinishedTwice}
               else {StartNonContextual, Preparing, Prepared, Retrieving, AdsKnown, Bidding, BidsKnown, Done,
                     FinishedTwice})
  {
    if log != [] {
      CallsOfTheKind(contextual, log[..|log| - 1]);
      assert log == log[..|log| - 1] + [log[|log| - 1]];
    }
  }

  /** generateBid runs only on ads that have been fetched, after prepareDataForAdRetrieval unless contextual. */
  lemma GenerateBidFollowsRetrieval(contextual: bool, log: seq<Event>, k: nat)
    requires StageAfter(contextual, log).Some? && k < |log| && log[k] == GenerateBidDispatched
    ensures log[..k] ==
              if contextual then [MetadataCalled, MetadataReturned]
              else [PrepareDispatched, PrepareReturned, RetrievalCalled, RetrievalReturned]
  {
    var start := if contextual then StartContextual else StartNonContextual;
    Automaton.PrefixIsAccepted(Next, start, log, k + 1);
    assert log[..k + 1][..k] == log[..k];
    CameFrom(contextual, log, k);
    CameFrom(contextual, log, k - 1);
    CameFrom(contextual, log, k - 2);
    if StageAfter(contextual, log[..k - 1]) == Some(Retrieving) {
      CameFrom(contextual, log, k - 3);
      CameFrom(contextual, log, k - 4);
    }
  }

  // ---------- the egress payload of a bid ----------

  /** A payload field: empty, as generateBid wrote it (None if that does not parse), or packed. */
  datatype EgressField = NoPayload | Written(doc: Option<seq<Item>>) | Packed(bytes: seq<bv8>)

  datatype Bid = Bid(ad: ProtectedAppSignalsAdWithBid, egressPayload: EgressField, unlimitedEgressPayload: EgressField)

  const UNLIMITED_EGRESS_BITS: EgressBitLimit := 0x7FFF_FFFF

  /** The written values fit the schema and the limit, and each one fits its feature. */
  ghost predicate CanPack(model: CacheModel, schemaId: string, field: EgressField, egressBitLimit: EgressBitLimit) {
    && field.Written? && field.doc.Some? && schemaId in model
    && ItemsFit(field.doc.value, model[schemaId].features)
    && InLimit(model[schemaId], egressBitLimit)
    && AllAccepted(model[schemaId].features, ValuesIn(field.doc.value))
  }

  ghost predicate PackedField(
    model: CacheModel, schemaId: string, egressBitLimit: EgressBitLimit, before: EgressField, after: EgressField)
  {
    if CanPack(model, schemaId, before, egressBitLimit)
    then after.Packed? && Carries(model[schemaId], ValuesIn(before.doc.value), after.bytes)
    else after == NoPayload
  }

  /** generateBid writes its payloads, it does not pack them; and no value it wrote has an undefined conversion. */
  ghost predicate FieldDefined(
    model: CacheModel, schemaId: string, field: EgressField, egressBitLimit: EgressBitLimit)
  {
    && !field.Packed?
    && (field.Written? ==> RequestDefined(model, schemaId, field.doc, egressBitLimit))
  }

  /** A field is packed or emptied, never passed on as it was written. */
  method PopulateSerializedEgressPayload(
    cache: Cache, schemaId: string, field: EgressField, egressBitLimit: EgressBitLimit) returns (r: EgressField)
    requires cache.Valid() && FieldDefined(cache.Model(), schemaId, field, egressBitLimit)
    ensures PackedField(cache.Model(), schemaId, egressBitLimit, field, r)
  {
    if field == NoPayload {
      return NoPayload;
    }
    var payload := GetSerializedEgressPayload(cache, schemaId, field.doc, egressBitLimit);
    r := if payload.Payload? then Packed(payload.bytes) else NoPayload;
  }

  // ---------- the reactor ----------

  datatype UdfOutcome<T> = ExecutionFailed | Unparsable | Parsed(value: T)

  datatype ContextualData = ContextualData(adRenderIds: nat, fetchAdsFromRetrievalService: bool)

  type Int32 = i: int | -0x8000_0000 <= i < 0x8000_0000

  /** The request, the flags, and what every call comes to. */
  datatype Environment = Environment(
    enableCancellation: bool,
    metadata: Option<ErrorStatus>,
    contextualData: Option<ContextualData>,
    prepareCallOk: bool,
    prepared: UdfOutcome<string>,
    fetchCallOk: bool,
    fetchOk: bool,
    anyAdsData: bool,
    generateCallOk: bool,
    generated: UdfOutcome<seq<Bid>>,
    isValid: Bid -> bool,
    limitedEgressBits: Int32,
    enableUnlimitedEgress: bool,
    egressSchemaVersion: string,
    unlimitedEgressSchemaVersion: string,
    encrypted: bool)
  {
    predicate IsContextualRetrievalRequest() {
      contextualData.Some? && contextualData.value.adRenderIds > 0 && !contextualData.value.fetchAdsFromRetrievalService
    }

    /** The calls of Finish at the end of a run with this status: a failed encryption finishes the RPC by itself, and
        then the reactor finishes it again. */
    function Ending(status: Status): seq<Event> {
      if status == OK && !encrypted then [Finished(Internal), Finished(Internal)] else [Finished(status)]
    }

    function EndStage(status: Status): Stage {
      if status == OK && !encrypted then FinishedTwice else Done
    }

    /** Every call before and including generateBid went well, and there were ads to bid for. */
    predicate GeneratesBids() {
      && metadata == None
      && (IsContextualRetrievalRequest() || (prepareCallOk && prepared.Parsed?))
      && fetchCallOk && fetchOk && anyAdsData && generateCallOk && generated.Parsed?
    }

    /** The status of a run that is not cancelled: having no ads is no error. */
    function Outcome(): Status {
      if metadata.Some? then metadata.value
      else if !IsContextualRetrievalRequest() && !(prepareCallOk && prepared.Parsed?) then Internal
      else if !(fetchCallOk && fetchOk) then Internal
      else if anyAdsData && !(generateCallOk && generated.Parsed?) then Internal
      else OK
    }
  }

  /** The ads are looked up by the ids in the request's own data, if it has any and does not ask for a retrieval. */
  predicate AsksForItsOwnAds(env: Environment) {
    match env.contextualData
    case None => false
    case Some(data) => data.adRenderIds != 0 && !data.fetchAdsFromRetrievalService
  }

  /** The status of a run that is not cancelled: OK exactly if every call that it needs went well. */
  lemma OutcomeMeans(env: Environment)
    ensures env.metadata.Some? ==> env.Outcome() == env.metadata.value && !env.GeneratesBids()
    ensures env.metadata == None ==> env.Outcome() in {OK, Internal}
    ensures env.Outcome() == OK <==>
              && env.metadata == None
              && (!AsksForItsOwnAds(env) ==> env.prepareCallOk && env.prepared.Parsed?)
              && env.fetchCallOk && env.fetchOk
              && (env.anyAdsData ==> env.generateCallOk && env.generated.Parsed?)
    ensures env.GeneratesBids() <==> env.Outcome() == OK && env.anyAdsData
    ensures env.IsContextualRetrievalRequest() <==> AsksForItsOwnAds(env)
  {
  }

  /** What is sent for a valid bid: the same ad, each payload packed under its own schema and limit or emptied. */
  ghost predicate SentFor(env: Environment, limited: CacheModel, unlimited: CacheModel, bid: Bid, sent: Bid) {
    && sent.ad == bid.ad
    && (if env.limitedEgressBits <= 0 then sent.egressPayload == NoPayload
        else PackedField(limited, env.egressSchemaVersion, env.limitedEgressBits,
               bid.egressPayload, sent.egressPayload))
    && (if !env.enableUnlimitedEgress then sent.unlimitedEgressPayload == NoPayload
        else PackedField(unlimited, env.unlimitedEgressSchemaVersion, UNLIMITED_EGRESS_BITS,
               bid.unlimitedEgressPayload, sent.unlimitedEgressPayload))
  }

  ghost predicate SentForAll(
    env: Environment, limited: CacheModel, unlimited: CacheModel, bids: seq<Bid>, sent: seq<Bid>)
  {
    && |sent| == |bids|
    && forall k :: 0 <= k < |bids| ==> SentFor(env, limited, unlimited, bids[k], sent[k])
  }

  /** Whatever is sent, a payload is there only where its kind is switched on, and it never exceeds its limit by more
      than the bits that fill its last byte. */
  lemma SentPayloadsFit(env: Environment, limited: CacheModel, unlimited: CacheModel, bid: Bid, sent: Bid)
    requires SentFor(env, limited, unlimited, bid, sent)
    ensures !sent.egressPayload.Written? && !sent.unlimitedEgressPayload.Written?
    ensures sent.egressPayload.Packed? ==>
              env.limitedEgressBits > 0 && 8 * (|sent.egressPayload.bytes| - 1) < env.limitedEgressBits + 8
    ensures sent.unlimitedEgressPayload.Packed? ==>
              env.enableUnlimitedEgress && 8 * (|sent.unlimitedEgressPayload.bytes| - 1) < 0x7FFF_FFFF + 8
  {
  }

  /** The payloads of a bid that are packed meet no undefined conversion. */
  ghost predicate PayloadsDefined(env: Environment, limited: CacheModel, unlimited: CacheModel, bid: Bid) {
    && (env.limitedEgressBits > 0 ==>
          FieldDefined(limited, env.egressSchemaVersion, bid.egressPayload, env.limitedEgressBits))
    && (env.enableUnlimitedEgress ==>
          FieldDefined(unlimited, env.unlimitedEgressSchemaVersion, bid.unlimitedEgressPayload, UNLIMITED_EGRESS_BITS))
  }

  /** Only the bids that pass validation are packed. */
  ghost predicate AllPayloadsDefined(env: Environment, limited: CacheModel, unlimited: CacheModel, bids: seq<Bid>) {
    forall bid :: bid in bids && env.isValid(bid) ==> PayloadsDefined(env, limited, unlimited, bid)
  }

  class ProtectedAppSignalsGenerateBidsReactor {
    const env: Environment
    const limitedCache: Cache
    const unlimitedCache: Cache
    var log: seq<Event>
    var rawResponse: seq<Bid>

    constructor (env: Environment, limitedCache: Cache, unlimitedCache: Cache)
      ensures this.env == env && this.limitedCache == limitedCache && this.unlimitedCache == unlimitedCache
      ensures log == [] && rawResponse == []
    {
      this.env, this.limitedCache, this.unlimitedCache := env, limitedCache, unlimitedCache;
      log, rawResponse := [], [];
    }

    ghost predicate At(stage: Stage)
      reads this
    {
      StageAfter(env.IsContextualRetrievalRequest(), log) == Some(stage)
    }

    ghost predicate Unfinished()
      reads this
    {
      StageAfter(env.IsContextualRetrievalRequest(), log).Some? && !At(Done) && !At(FinishedTwice)
    }

    method Record(event: Event)
      requires StageAfter(env.IsContextualRetrievalRequest(), log).Some?
      requires Next(StageAfter(env.IsContextualRetrievalRequest(), log).value, event).Some?
      modifies `log
      ensures StageAfter(env.IsContextualRetrievalRequest(), log) ==
                Next(StageAfter(env.IsContextualRetrievalRequest(), old(log)).value, event)
      ensures log == old(log) + [event]
    {
      Automaton.AfterOne(
        Next, if env.IsContextualRetrievalRequest() then StartContextual else StartNonContextual, log, event);
      log := log + [event];
    }

    /** The run has ended with this status. */
    ghost predicate FinishedWith(status: Status)
      reads this
    {
      var ending := env.Ending(status);
      At(env.EndStage(status)) && |log| >= |ending| && log[|log| - |ending|..] == ending
    }

    ghost predicate CancelledByClient()
      reads this
    {
      env.enableCancellation && FinishedWith(Cancelled)
    }

    /** A response that cannot be encrypted finishes the RPC twice, both times with an error. */
    method EncryptResponseAndFinish(status: Status)
      requires Unfinished()
      modifies `log
      ensures FinishedWith(status)
    {
      hide StageAfter;
      var sent := status;
      if status == OK && !env.encrypted {
        Record(Finished(Internal));
        sent := Internal;
      }
      Record(Finished(sent));
      assert log[|log| - |env.Ending(status)|..] == env.Ending(status);
    }

    /** ExecuteRomaRequests: false means that the RPC has been finished instead of going on. */
    method ExecuteRomaRequests<T>(dispatched: Event, returned: Event, callOk: bool, outcome: UdfOutcome<T>)
      returns (proceed: bool)
      requires Unfinished()
      requires || (At(StartNonContextual) && dispatched == PrepareDispatched && returned == PrepareReturned)
               || (At(AdsKnown) && dispatched == GenerateBidDispatched && returned == GenerateBidReturned)
      modifies `log
      ensures proceed ==>
                && callOk && outcome.Parsed?
                && (old(At(StartNonContextual)) ==> At(Prepared)) && (old(At(AdsKnown)) ==> At(BidsKnown))
      ensures !proceed ==> CancelledByClient() || (FinishedWith(Internal) && !(callOk && outcome.Parsed?))
    {
      proceed := false;
      var cancelled := IsCancelled(env.enableCancellation);
      if cancelled {
        EncryptResponseAndFinish(Cancelled);
        return;
      }
      if !callOk {
        EncryptResponseAndFinish(Internal);
        return;
      }
      Record(dispatched);
      Record(returned);
      cancelled := IsCancelled(env.enableCancellation);
      if cancelled {
        EncryptResponseAndFinish(Cancelled);
      } else if !outcome.Parsed? {
        EncryptResponseAndFinish(Internal);
      } else {
        proceed := true;
      }
    }

    /** FetchAds and FetchAdsMetadata: one call to the retrieval or the key-value service. */
    method FetchAdsData(called: Event, returned: Event) returns (proceed: bool)
      requires || (At(Prepared) && called == RetrievalCalled && returned == RetrievalReturned)
               || (At(StartContextual) && called == MetadataCalled && returned == MetadataReturned)
      modifies `log
      ensures proceed ==> At(AdsKnown) && env.fetchCallOk && env.fetchOk
      ensures !proceed ==> CancelledByClient() || (FinishedWith(Internal) && !(env.fetchCallOk && env.fetchOk))
    {
      proceed := false;
      var cancelled := IsCancelled(env.enableCancellation);
      if cancelled {
        EncryptResponseAndFinish(Cancelled);
        return;
      }
      if !env.fetchCallOk {
        EncryptResponseAndFinish(Internal);
        return;
      }
      Record(called);
      Record(returned);
      cancelled := IsCancelled(env.enableCancellation);
      if cancelled {
        EncryptResponseAndFinish(Cancelled);
      } else if !env.fetchOk {
        EncryptResponseAndFinish(Internal);
      } else {
        proceed := true;
      }
    }

    method PackPayloads(bid: Bid) returns (sent: Bid)
      requires limitedCache.Valid() && unlimitedCache.Valid()
      requires PayloadsDefined(env, limitedCache.Model(), unlimitedCache.Model(), bid)
      ensures SentFor(env, limitedCache.Model(), unlimitedCache.Model(), bid, sent)
    {
      sent := bid;
      if env.limitedEgressBits <= 0 {
        sent := sent.(egressPayload := NoPayload);
      } else {
        var field := PopulateSerializedEgressPayload(
          limitedCache, env.egressSchemaVersion, bid.egressPayload, env.limitedEgressBits);
        sent := sent.(egressPayload := field);
      }
      if !env.enableUnlimitedEgress {
        sent := sent.(unlimitedEgressPayload := NoPayload);
      } else {
        var field := PopulateSerializedEgressPayload(
          unlimitedCache, env.unlimitedEgressSchemaVersion, bid.unlimitedEgressPayload, UNLIMITED_EGRESS_BITS);
        sent := sent.(unlimitedEgressPayload := field);
      }
    }

    /** The bids that pass validation, in order. */
    method CollectBids(bids: seq<Bid>)
      requires rawResponse == []
      requires limitedCache.Valid() && unlimitedCache.Valid()
      requires AllPayloadsDefined(env, limitedCache.Model(), unlimitedCache.Model(), bids)
      modifies `rawResponse
      ensures SentForAll(env, limitedCache.Model(), unlimitedCache.Model(), KeepIf(env.isValid, bids), rawResponse)
    {
      for i := 0 to |bids|
        invariant SentForAll(
                    env, limitedCache.Model(), unlimitedCache.Model(), KeepIf(env.isValid, bids[..i]), rawResponse)
      {
        assert bids[..i + 1] == bids[..i] + [bids[i]] && bids[i] in bids;
        KeepIfSnoc(env.isValid, bids[..i], bids[i]);
        if !env.isValid(bids[i]) {
          continue;
        }
        var sent := PackPayloads(bids[i]);
        rawResponse := rawResponse + [sent];
      }
      assert bids[..|bids|] == bids;
    }

    /** The caches belong to the server: a request neither changes them nor depends on what it is sent. */
    ghost predicate Ready()
      reads this, limitedCache, unlimitedCache, limitedCache.Owned(), unlimitedCache.Owned()
    {
      && limitedCache.Valid() && unlimitedCache.Valid()
      && (env.generated.Parsed? ==>
            AllPayloadsDefined(env, limitedCache.Model(), unlimitedCache.Model(), env.generated.value))
    }

    /** Unless the client cancelled, the response and the status are those of the environment's answers. */
    ghost predicate Concluded()
      reads this, limitedCache, unlimitedCache, limitedCache.Owned(), unlimitedCache.Owned()
    {
      || (CancelledByClient() && rawResponse == [])
      || (&& FinishedWith(env.Outcome())
          && (if env.GeneratesBids()
              then SentForAll(env, limitedCache.Model(), unlimitedCache.Model(),
                     KeepIf(env.isValid, env.generated.value), rawResponse)
              else rawResponse == []))
    }

    method OnFetchAdsDataDone()
      requires At(AdsKnown) && rawResponse == [] && Ready()
      requires env.metadata == None && env.fetchCallOk && env.fetchOk
      requires env.IsContextualRetrievalRequest() || (env.prepareCallOk && env.prepared.Parsed?)
      modifies this
      ensures Concluded()
    {
      if !env.anyAdsData {
        EncryptResponseAndFinish(OK);
        return;
      }
      var proceed := ExecuteRomaRequests(GenerateBidDispatched, GenerateBidReturned, env.generateCallOk, env.generated);
      if proceed {
        CollectBids(env.generated.value);
        EncryptResponseAndFinish(OK);
      }
    }

    method StartNonContextualAdsRetrieval()
      requires At(StartNonContextual) && rawResponse == [] && Ready()
      requires env.metadata == None && !env.IsContextualRetrievalRequest()
      modifies this
      ensures Concluded()
    {
      var proceed := ExecuteRomaRequests(PrepareDispatched, PrepareReturned, env.prepareCallOk, env.prepared);
      if proceed {
        proceed := FetchAdsData(RetrievalCalled, RetrievalReturned);
        if proceed {
          OnFetchAdsDataDone();
        }
      }
    }

    method StartContextualAdsRetrieval()
      requires At(StartContextual) && rawResponse == [] && Ready()
      requires env.metadata == None && env.IsContextualRetrievalRequest()
      modifies this
      ensures Concluded()
    {
      var proceed := FetchAdsData(MetadataCalled, MetadataReturned);
      if proceed {
        OnFetchAdsDataDone();
      }
    }

    method Execute()
      requires log == [] && rawResponse == [] && Ready()
      modifies this
      ensures Concluded()
      ensures FinishCalls(log) == if FinishedWith(OK) && !env.encrypted then 2 else 1
      ensures if AsksForItsOwnAds(env) then PrepareDispatched !in log && RetrievalCalled !in log
              else MetadataCalled !in log
    {
      Run();
      OutcomeMeans(env);
      CallsOfTheKind(env.IsContextualRetrievalRequest(), log);
      FinishCallsByStage(env.IsContextualRetrievalRequest(), log);
    }

    method Run()
      requires log == [] && rawResponse == [] && Ready()
      modifies this
      ensures Concluded()
    {
      var cancelled := IsCancelled(env.enableCancellation);
      if cancelled {
        EncryptResponseAndFinish(Cancelled);
      } else if env.metadata.Some? {
        EncryptResponseAndFinish(env.metadata.value);
      } else if env.IsContextualRetrievalRequest() {
        StartContextualAdsRetrieval();
      } else {
        StartNonContextualAdsRetrieval();
      }
    }
  }
}
