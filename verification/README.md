# Ad auction decision logic, modelled and verified in Dafny

This project models the part of the Bidding and Auction services that decides an ad auction, and proves what it is
meant to guarantee. Transport, encryption, JSON, user-defined functions and metrics are left outside: where they matter
they appear as values or choices of an environment, for which every outcome is considered.

## What is modelled

**Winner selection** (`AuctionTypes`, `AdRejection`, `WinnerSelection`, `OtherBids`, `ScoreAdsReactor`). The scored ads
are an array; rejected ones are swapped to its end in place, the rest is sorted by (score, bid, k-anonymity), one scan
collects winner and ghost-winner candidates, and a per-score index yields the "highest scoring other bids". The reactor
around it is a class with an event log; a small automaton (`Automaton`) says which logs are legal. Scores and bids are
reals, and a score passed as an `int` argument is truncated, as in the source: ties and the two top scores are therefore
not always complete, and the lemmas say for which scores they are.

**Egress payloads** (`EgressBits`, `EgressFeatures`, `EgressPacking`, `EgressDecoding`, `EgressSchemaCache`). Features of
variable width are packed across byte boundaries from the last byte backwards into an array of bytes. A decoder, and the
number the bytes spell, are independent definitions the packing is proved against. The schema cache is a class whose
feature objects are mutable; every lookup hands out fresh ones.

**Seller orchestration** (`BuyerSelection`, `BidTypes`, `CurrencyFilter`, `KAnonHashes`, `TaskTracker`,
`SelectAdReactor`, `SelectAdProtocol`, `SelectAdKAnonymity`, `SelectAdBids`, `SelectAdScoring`, `KAnonymousAuction`).
Choosing real and chaff buyers, filtering currencies and computing k-anonymity hashes are loops proved against
specifications. The reactor is a step system: a state, one function per method, and events that may come in any order,
among them a cancellation at any time. A run is any sequence of events each of which can happen when it is its turn, so
a statement about all runs is a statement about all interleavings. `KAnonymousAuction` joins the seller's run with the
auction's.

**Bid reactors** (`PAggContributions`, `BinaryBidReactor`, `GetBidsReactor`, `PasBidReactor`). The binary reactor's
`Execute` makes a free choice between dispatching and running any outstanding callback; its result is nevertheless a
function of the outcomes. The buyer front end is a step system like the seller's. The Protected App Signals reactor is a
class with an event log.

## Assumptions

- A call that returned OK runs its callback exactly once, and a call that did not never does. Each step of a step system
  is atomic; in the two reactors with an event log a callback runs right after the call it belongs to, since each has
  only one call outstanding.
- A task tracker counts under a lock, so completions are atomic. Its pending count is an `int` in the model: that it
  never drops below zero is proved, not assumed.
- Random choices (`std::shuffle`, `std::sample`, distributions) are arbitrary within their range.
- Floats are reals: there is no NaN and no rounding. A score outside the range of a 32-bit `int` has no defined
  conversion; here it becomes some `int`, and an `int` comparison may put it anywhere.

## Where the code and its documentation disagree

The model follows the code; the lemma named states what then holds.

- Ties for the winner are compared through `int` (services/auction_service/score_ads_reactor.cc:317), so a tie on a
  fractional score, or on one too large for an `int`, is lost: `AllTiesIncludedIff`, `AllGhostTiesIncludedIff`,
  `FractionalTieIsDropped`, `HugeTieIsDropped`.
- The scores are sorted through `int` as well (line 1579), so the two used for the other bids need not be the two
  highest: `TopScoresAreHighestIff`, `FractionalScoresCanHideTheBest`.
- A negative second-best score is reported among the other bids, since only zero stops the loop:
  `OnlyPositiveScoresListedIff`, `OnlyPositiveScoresUsedIff`, `NegativeScoreIsListed`.
- A signed egress feature of zero bits passes every bound check and loses its value, and one of more than 32 bits passes
  negative numbers whose conversion has no defined result: `SignedRoundTripIff`, `ZeroBitNumberIsLost`,
  `WideNegativeIsUndefined`.
- The declared feature sizes are added in 32 bits; where they overflow and what is left is within the limit, the bytes do
  not suffice: `IndexLeavesIff`, `IndexLeavesIffSumOverflows`, `SizesSuffice`, `WrappedSumLeavesRange`.
- The scoring callback reads the unsorted, unfiltered responses at the winner's position among the sorted ads
  (services/auction_service/score_ads_reactor.cc:1738-1739). If the response there failed the process aborts and the RPC
  is never finished: `SelectWinners`, `SomeChoiceAbortsIff`, `NoFailedResponseNoAbort`, `FailedResponseAborts`.
- The single reporting call reads the signals of the winner's buyer from a map the seller fills from its per-buyer
  configuration only, and aborts if they are missing (lines 1104-1108 and 1132-1135; line 929 asks first):
  `ReportAbortsIff`, `WinnerWithoutSignalsAborts`.
- A response that cannot be encrypted finishes the RPC inside `EncryptResponse`
  (services/common/code_dispatch/code_dispatch_reactor.h:124-139), and three reactors finish it again: the two
  `FinishCallsByStage` lemmas and the three `Execute` methods say how often Finish is called.
- Task accounting of a replay is exact only while every cached real buyer still has an input:
  `ReplayConservesTasksIff`, `ReplayCanLoseATask`, and `SelectAdProtocol.SettledRunHasFinishedIff` with
  `DroppedBuyerNeverFinishes` for what that means for the RPC.
- With version 2 of the key-value client a request that cannot be created (and, in the seller front end, a call that
  fails) completes no task, and a Protected App Signals input without signals is counted but never started: the two
  `SettledRunHasFinishedIff` lemmas give the exact condition on the events of a run; `LostSignalsNeverFinish`,
  `LostRequestNeverFinishes` and `MissingSignalsNeverFinish` are the inputs.
- An answer of version 2 that does not convert is read all the same by the seller front end
  (services/seller_frontend_service/select_ad_reactor.cc:1506-1518), and the process aborts; the buyer front end asks
  first (services/buyer_frontend_service/get_bids_unary_reactor.cc:827). It is part of the seller's condition:
  `SignalsLostIff`, `UnconvertedSignalsNeverFinish`.
- A client that has cancelled is told so, unless a lookup ends the join of the two lookups first: then signals that are
  missing are reported as an error to the ad server, and empty ones with chaff: `SelectAdScoring.StatusOfTheEnd`.

## Model

| member | source | states |
|---|---|---|
| AuctionTypes.OutranksIsStrictWeakOrder | services/auction_service/score_ads_reactor.cc:1366-1389 | the comparator given to the sort is irreflexive and transitive, incomparability is transitive, and two ads are incomparable iff score, bid and k-anonymity agree |
| AuctionTypes.InIntRangeMeans | services/auction_service/score_ads_reactor.cc:316-323 | a score has a defined conversion to int iff it lies strictly between -2147483649 and 2147483648, and the conversion truncates toward zero |
| AdRejection.DroppedIff | services/auction_service/score_ads_reactor.cc:1156-1207 | on the ad as scored: a reason is recorded iff its (possibly fallen-back) bid is in a wrong currency, its converted bid was tampered with, or the seller rejected a positively scored ad; it is dropped iff that holds or a device component auction disallows it |
| AdRejection.RecordedReasonIsDue | services/auction_service/score_ads_reactor.cc:1156-1207 | which reason is recorded, with owner and name: the currency check's for a wrong currency, otherwise the invalid bid's for a tampered one, otherwise the seller's own for a positively scored ad, otherwise none |
| AdRejection.SurvivorIsTheAd | services/auction_service/score_ads_reactor.cc:208-223 | an ad that is kept is unchanged but for bid and currency, which become the buyer's exactly where they fall back |
| AdRejection.NonPositiveScoreHidesSellerReason | services/auction_service/score_ads_reactor.cc:1197-1204 | for a non-positive score no reason the seller gives changes what is recorded |
| AdRejection.SurvivorsCarrySellerCurrency | services/auction_service/score_ads_reactor.cc:196-223 | in a component auction every survivor with a positive bid is in the seller currency or none, keeps a positive bid if the buyer's was, and stems from an ad that was scored |
| WinnerSelection.Swap | services/auction_service/score_ads_reactor.cc:1351-1364 | exchanges exactly two elements of the array |
| WinnerSelection.DropRejectedAds | services/auction_service/score_ads_reactor.cc:1395-1455 | the prefix is a permutation of the surviving ads, the reasons are exactly those due, the counter is their number, and the original scores are recorded; each ad is examined once |
| WinnerSelection.SortDescending | services/auction_service/score_ads_reactor.cc:1456-1460 | a permutation sorted by the comparator |
| WinnerSelection.FindCandidates | services/auction_service/score_ads_reactor.cc:1460-1490 | both candidate lists hold the first eligible ad and exactly the later eligible ones that tie with it on a whole score in the int range |
| WinnerSelection.WinnerCandidatesAreMaximal | services/auction_service/score_ads_reactor.cc:1460-1490 | there is a candidate iff some k-anonymous ad has a positive score, and every candidate has the best score of the k-anonymous ads |
| WinnerSelection.CandidatePositionsAreFixed | services/auction_service/score_ads_reactor.cc:1456-1490 | whatever order the sort leaves among ads that compare equal, the winner candidates stand at the same positions |
| WinnerSelection.AllTiesIncludedIff | services/auction_service/score_ads_reactor.cc:316-323 | all best ads are candidates iff the best score is a whole number in the int range or only one ad has it |
| WinnerSelection.FractionalTieIsDropped | services/auction_service/score_ads_reactor.cc:316-323 | two k-anonymous ads tied at 1.5: the second is best too but no candidate |
| WinnerSelection.HugeTieIsDropped | services/auction_service/score_ads_reactor.cc:316-323 | two k-anonymous ads tied at 3000000000: a whole score, yet the second is no candidate |
| WinnerSelection.GhostCandidatesOutrank | services/auction_service/score_ads_reactor.cc:1462-1490 | ghost candidates are not k-anonymous, have the best score of all ads, and beat every k-anonymous contender strictly on (score, bid) |
| WinnerSelection.GhostCandidatesComplete | services/auction_service/score_ads_reactor.cc:1462-1490 | if some ad meets that description there are ghost candidates and the first meets it with the same score; any other ad that meets it is a candidate iff the score is whole and in the int range |
| WinnerSelection.AllGhostTiesIncludedIff | services/auction_service/score_ads_reactor.cc:1462-1490 | all ads that meet it are ghost candidates iff their score is a whole number in the int range or only one ad meets it |
| WinnerSelection.ChooseRandomElements | services/auction_service/score_ads_reactor.cc:325-335 | any sample has the requested size, comes from the list, and keeps its order |
| WinnerSelection.ScoringData.ChooseWinnerAndGhostWinners | services/auction_service/score_ads_reactor.cc:355-371 | the winner is a candidate, or -1 iff there is none; the ghost winners are min(allowed, candidates) distinct candidates |
| WinnerSelection.BuildScoreIndex | services/auction_service/score_ads_reactor.cc:1503-1520 | for every score the index lists exactly the positions with that score that are no ghost candidates |
| WinnerSelection.FindWinningAd | services/auction_service/score_ads_reactor.cc:1391-1522 | for any scored ads: survivors permuted and sorted, winner and ghosts chosen among their candidates, the score index, and exactly the rejection reasons due |
| WinnerSelection.WinnerOutcome | services/auction_service/score_ads_reactor.cc:1391-1522 | no winner iff no k-anonymous survivor has a positive score; otherwise the winner is such a survivor of maximal score |
| WinnerSelection.GhostWinnerOutcome | services/auction_service/score_ads_reactor.cc:1391-1522 | ghost winners are distinct, exactly min(allowed, candidates) many, never the winner, and outrank every k-anonymous survivor |
| OtherBids.TopScoresAreHighestIff | services/auction_service/score_ads_reactor.cc:1575-1590 | given some positive score: in every order the sort may leave, the scores used are exactly the non-zero ones with at most one greater, iff the int comparison puts each such score before every other and each positive one before a zero among them |
| OtherBids.OnlyPositiveScoresUsedIff | services/auction_service/score_ads_reactor.cc:1575-1590 | in every such order they are exactly the positive ones with at most one greater, iff besides none of the two highest is negative |
| OtherBids.WholeScoresAreFixed | services/auction_service/score_ads_reactor.cc:1575-1580 | whole scores in the int range always meet the condition on the comparison |
| OtherBids.PopulateHighestScoringOtherBidsData | services/auction_service/score_ads_reactor.cc:1561-1624 | per owner the map lists exactly the bids of the ads listed for the top scores, in order, and no empty lists; without a seller currency they are the buyers' own bids, with one the bids that the recorded scores give in it; nothing at the top level |
| OtherBids.ListedExactly | services/auction_service/score_ads_reactor.cc:1581-1590 | under that condition the ads listed are exactly the others with a non-zero score and at most one higher score among the ads that are no ghost candidates |
| OtherBids.OtherBidsAreTopTwo | services/auction_service/score_ads_reactor.cc:1561-1624 | under that condition, and with no negative ad among the two highest scores, each owner's list is, as a multiset, the bids so priced of its ads with one of the two highest positive scores that are neither winner nor ghost candidate, and an owner appears iff it has one |
| OtherBids.OnlyPositiveScoresListedIff | services/auction_service/score_ads_reactor.cc:1581-1590 | the listed ads are the positively scored ones iff no ad outside the ghost candidates with at most one higher score is negative |
| OtherBids.NegativeScoreIsListed | services/auction_service/score_ads_reactor.cc:1581-1590 | two k-anonymous ads scored 5 and -2: the second is listed |
| OtherBids.FractionalScoresCanHideTheBest | services/auction_service/score_ads_reactor.cc:1575-1580 | scores 1.2, 1.5, 1.9 may be ordered so that 1.9 is not among the two used |
| ScoreAdsReactor.PopulateDispatchRequests | services/auction_service/score_ads_reactor.cc:653-804 | every request's id is new and maps to the ad it was built for; an ad whose id is taken or whose request fails is skipped |
| ScoreAdsReactor.CollectValidRomaResponses | services/auction_service/score_ads_reactor.cc:1248-1349 | the valid responses in order, each scored ad carrying the buyer's bid and the enforced k-anonymity of the ad it was dispatched for |
| ScoreAdsReactor.CollectedIff | services/auction_service/score_ads_reactor.cc:1258-1349 | an ad is collected iff some answer about a dispatched ad scores it: owner, name, buyer's bid and currency are the dispatched ad's, everything else the answer's |
| ScoreAdsReactor.SurvivorsTrace | services/auction_service/score_ads_reactor.cc:1258-1349 | every ad left after the selection was dispatched and agrees with the dispatched ad on owner, name, bid, currency and k-anonymity |
| ScoreAdsReactor.SelectionIsOutcome | services/auction_service/score_ads_reactor.cc:1705-1743 | the response meets the auction's promise: best k-anonymous survivor or none, ghosts that outrank it, and exactly the rejection reasons due |
| ScoreAdsReactor.NobodyBeatsTheWinner | services/auction_service/score_ads_reactor.cc:1705-1743 | no answer about a k-anonymous ad that neither the checks nor the seller reject gives a higher score than the winner's, nor a positive one where there is no winner |
| ScoreAdsReactor.WinnerWasScored | services/auction_service/score_ads_reactor.cc:1705-1743 | the winner's score, bid and currency are those some answer gave about it, or the buyer's where they fall back, and nothing speaks against it |
| ScoreAdsReactor.ScoreAdsReactor.SelectWinners | services/auction_service/score_ads_reactor.cc:1705-1740 | for the ads dispatched and the answers received the callback aborts iff there is a winner and the response at the winner's position among the sorted ads failed; otherwise the response holds the auction's outcome and, for a winner, its other bids |
| ScoreAdsReactor.SomeChoiceAbortsIff | services/auction_service/score_ads_reactor.cc:1738-1739 | for given responses some choice among the candidates aborts iff a winner candidate stands at the position of a failed response |
| ScoreAdsReactor.NoFailedResponseNoAbort | services/auction_service/score_ads_reactor.cc:1738-1739 | if every execution succeeded no choice aborts |
| ScoreAdsReactor.FailedResponseAborts | services/auction_service/score_ads_reactor.cc:1738-1739 | one ad whose execution failed and one scored 1: the winner stands at position 0, where the failed response is |
| ScoreAdsReactor.WinnerReportsOtherBids | services/auction_service/score_ads_reactor.cc:1705-1740 | the winner's other bids are, per owner and as multisets, the bids of the survivors with one of the two highest positive scores, except winner and ghost candidates, when the int comparison tells those scores apart and none is negative: the dispatched ad's bid, or with a seller currency the one an answer about the ad gave in it |
| ScoreAdsReactor.ScoreAdsReactor.BuildDispatchRequests | services/auction_service/score_ads_reactor.cc:839-896 | the request is refused iff there is nothing valid to score, with the status of the case, and what is dispatched comes from the request |
| ScoreAdsReactor.DispatchableIff | services/auction_service/score_ads_reactor.cc:833-887 | there is something to score iff a top-level auction has component results of one generation that name an ad, and any other has the signals it needs and a request that could be built |
| ScoreAdsReactor.RefusalMeans | services/auction_service/score_ads_reactor.cc:833-887 | the status of a refusal, case by case: invalid argument only for component results of mixed generations, the missing signals' own status, internal otherwise |
| ScoreAdsReactor.ScoreAdsReactor.Execute | services/auction_service/score_ads_reactor.cc:806-925 | every run is refused with the status of the case, not dispatched, cancelled, or ends with the auction's outcome, its other bids and exactly the reporting calls the winner asks for, cut short only where a cancellation is noticed; or it aborts, with a winner in the response iff the single reporting call finds no signals of its buyer, and without one only if some choice aborts; Finish is called once, twice after an answer that could not be encrypted, and never in an aborted run; reportWin is called iff the winner asks for it and nobody cancelled |
| ScoreAdsReactor.FinishesExactlyOnce | services/auction_service/score_ads_reactor.cc:2115-2137 | a log that ends in Done holds exactly one Finish, as its last event |
| ScoreAdsReactor.FinishCallsByStage | services/auction_service/score_ads_reactor.cc:2115-2137 | the stage a log leads to tells how often Finish was called: once, twice after a failed encryption, or not at all |
| ScoreAdsReactor.ReportAbortsIff | services/auction_service/score_ads_reactor.cc:1101-1135 | a run that got to report aborts iff reportWin URLs are generated in the single reporting call and the winner's buyer has no signals |
| ScoreAdsReactor.WinnerWithoutSignalsAborts | services/auction_service/score_ads_reactor.cc:1101-1108 | a winner of a buyer without signals in such an auction: the run aborts, and does not once the buyer has signals |
| ScoreAdsReactor.ReportWinFollowsReportResult | services/auction_service/score_ads_reactor.cc:1925-2008 | reportWin is dispatched only directly after reportResult has returned, and that only after the scores have |
| ScoreAdsReactor.ReportWinDispatchedIff | services/auction_service/score_ads_reactor.cc:1925-2008 | the log of a run that got its scores holds a reportWin dispatch iff there is a winner, code isolation, URL generation, an answered reportResult, a buyer with the function enabled for the kind of the winner, and no cancellation |
| ScoreAdsReactor.ReportingCallsIff | services/auction_service/score_ads_reactor.cc:1666-1699 | which other reporting call is made: reportResult iff there is a winner and the code is isolated and the call succeeds, the single call iff it is not, nothing aborts or is cancelled before it, and it succeeds |
| ScoreAdsReactor.ReportingEnds | services/auction_service/score_ads_reactor.cc:2115-2137 | a run that got its scores ends aborted, cancelled by a noticed cancellation, or with OK, after a first Finish iff the response cannot be encrypted |
| EgressBits.UnsignedIntToBits | services/bidding_service/utils/egress.cc:30-39 | fills the vector with the number's bits, most significant first |
| EgressBits.ValueOfBitsOf | services/bidding_service/utils/egress.cc:30-39 | a number below 2^n is the value of its n bits |
| EgressFeatures.SignedRoundTripIff | services/bidding_service/egress_features/signed_int_feature.cc:39-69 | every number that is not refused serializes and decodes to itself, iff the feature is one to 32 bits wide |
| EgressFeatures.ZeroBitNumberIsLost | services/bidding_service/egress_features/signed_int_feature.cc:53-66 | 5 in a field of no bits is accepted and reads as 0 |
| EgressFeatures.WideNegativeIsUndefined | services/bidding_service/egress_features/signed_int_feature.cc:53-60 | -1 in a field of 40 bits, which the schema language allows, has no defined conversion |
| EgressFeatures.AcceptedIff | services/bidding_service/egress_features/histogram_feature.cc:62-128 | a value is serialized iff its type is the feature's and it fits: a number is the value of some bit vector of the declared width, in two's complement for signed fields of one to 32 bits; a bucket holds exactly as many truth values as declared; a histogram fits member by member |
| EgressFeatures.SignedAcceptedIff | services/bidding_service/egress_features/signed_int_feature.cc:39-69 | a signed field of one to 32 bits accepts exactly the numbers some bit vector of its width stands for in two's complement; any other accepts every int that is not negative |
| EgressFeatures.UnsignedAcceptedIff | services/bidding_service/egress_features/unsigned_int_feature.cc:40-62 | an unsigned field accepts exactly the uint32 numbers that some bit vector of its width stands for |
| EgressFeatures.UnsetReadsAsZero | services/bidding_service/egress_features/egress_feature.cc:26-56 | a feature whose value was never set takes its declared bits and reads as zero |
| EgressFeatures.UndefinedValueIff | services/bidding_service/egress_features/signed_int_feature.cc:53-60 | serializing a value is undefined iff it meets a negative number in a signed field of zero or more than 32 bits before anything it refuses |
| EgressFeatures.FeatureRoundTrip | services/bidding_service/egress_features/histogram_feature.cc:62-128 | for every feature type, what serializes takes the declared bits, and decodes to the value written, bucket and histogram members in order, iff no zero-bit signed field holds a number other than zero |
| EgressPacking.CopyFeature | services/bidding_service/protected_app_signals_generate_bids_reactor.cc:139-155 | one feature's bits are appended to the stream in the bytes, all other bits unchanged, the byte index in range |
| EgressPacking.HeaderRoundTripIff | services/bidding_service/protected_app_signals_generate_bids_reactor.cc:97-102 | the low five bits are zero, and the upper three give the version back iff it is at most 7 |
| EgressPacking.SerializeEgressFeatures | services/bidding_service/protected_app_signals_generate_bids_reactor.cc:105-169 | for every limit up to INT_MAX: empty iff the wrapped size is zero or above the limit, failed iff a feature does not serialize, else exactly the packed bits with zero padding and the header; wherever the byte index stays in range and no undefined conversion is reached |
| EgressDecoding.PackedNumber | services/bidding_service/protected_app_signals_generate_bids_reactor.cc:130-160 | the bytes before the header, read big-endian, are the sum of each feature's number times two to the sizes before it |
| EgressDecoding.TakeFeaturesInverts | services/bidding_service/protected_app_signals_generate_bids_reactor.cc:130-160 | splitting the stream by the sizes gives every feature's bits back, whatever follows |
| EgressDecoding.PayloadRoundTrip | services/bidding_service/protected_app_signals_generate_bids_reactor.cc:105-169 | who knows the schema reads a value back from the bytes iff no zero-bit signed field of it holds a number other than zero |
| EgressDecoding.PayloadInjective | services/bidding_service/protected_app_signals_generate_bids_reactor.cc:105-169 | two value lists with the same bytes under one schema mean the same, feature by feature, where nothing is lost to a zero-bit field |
| EgressDecoding.IndexLeavesIff | services/bidding_service/protected_app_signals_generate_bids_reactor.cc:105-155 | for all values: the byte index leaves its range iff the wrapped sum of the sizes is positive and within the limit and the features before the first that does not serialize need more bits than were reserved for it |
| EgressDecoding.IndexLeavesIffSumOverflows | services/bidding_service/protected_app_signals_generate_bids_reactor.cc:105-155 | when every value serializes: iff the sizes add up to 2^32 or more and the wrapped sum is positive and within the limit |
| EgressDecoding.SizesSuffice | services/bidding_service/protected_app_signals_generate_bids_reactor.cc:105-155 | whatever the values, the index stays in range if the sizes do not overflow their sum, or the wrapped sum is zero or above the limit |
| EgressDecoding.WrappedSumLeavesRange | services/bidding_service/protected_app_signals_generate_bids_reactor.cc:105-155 | unsigned features of 4294967295 and 9 bits, both 1, with a limit of 20: one byte is reserved and the index leaves its range |
| EgressSchemaCache.Cache.Update | services/bidding_service/egress_schema_cache.cc:69-95 | succeeds iff the schema is valid and each feature is a boolean, unsigned, signed, bucket or histogram feature; then that id's entry is replaced, otherwise nothing changes |
| EgressSchemaCache.Cache.Get | services/bidding_service/egress_schema_cache.cc:101-127 | found iff the id was stored; the features are fresh, distinct, unset objects with the stored schemas |
| EgressSchemaCache.PopulateValuesForEgressFeatures | services/bidding_service/protected_app_signals_generate_bids_reactor.cc:71-95 | succeeds iff there are as many objects as features, each of its feature's type; then every feature has its value |
| EgressSchemaCache.GetSerializedEgressPayload | services/bidding_service/protected_app_signals_generate_bids_reactor.cc:417-435 | fails iff the id is unknown, a feature has another type, or a value does not fit its feature within the limit; empty iff the size is outside the limit; otherwise the bytes carry the request's values under the cached schema |
| EgressSchemaCache.CarriedValuesAreReadable | services/bidding_service/protected_app_signals_generate_bids_reactor.cc:417-435 | from such bytes and the schema alone the version can be read, and every value that no zero-bit field has swallowed |
| EgressSchemaCache.Session | services/bidding_service/egress_schema_cache.cc:69-127 | over any sequence of updates, lookups and settings the objects agree with a ledger of plain values |
| EgressSchemaCache.LastValidUpdateWins | services/bidding_service/egress_schema_cache.cc:69-95 | whatever comes after, an id maps to the schema of its last successful update: one that is valid and whose feature types are all known |
| EgressSchemaCache.NoUpdateNoChange | services/bidding_service/egress_schema_cache.cc:69-95 | without a successful update of it an id maps to what it did before |
| EgressSchemaCache.LastMatchingSetWins | services/bidding_service/egress_features/egress_feature.cc:34-55 | of all values set through a handle the last one of the feature's own type counts, and no other |
| EgressSchemaCache.LookupHandsOutUnset | services/bidding_service/egress_schema_cache.cc:101-127 | a lookup hands out one unset feature for each feature of the cached schema, and nothing for an unknown id |
| EgressSchemaCache.OthersDoNotTouchAHandle | services/bidding_service/egress_schema_cache.cc:109-124 | a handed-out copy changes only through its own holder |
| BuyerSelection.GetChaffingConfig | services/seller_frontend_service/select_ad_reactor.cc:458-532 | shuffled candidates and a number within its bounds on a first run, the cached buyers on a replay, nothing without chaffing |
| BuyerSelection.GetNonChaffBuyerNames | services/seller_frontend_service/select_ad_reactor.cc:544-581 | exactly the configured buyers named by the auction and present in the ciphertext, in order |
| BuyerSelection.Solicit | services/seller_frontend_service/select_ad_reactor.cc:648-675 | the first requests up to the cap are sent, the others skipped, and the buyers sent to are recorded by role |
| BuyerSelection.FetchBids | services/seller_frontend_service/select_ad_reactor.cc:583-696 | for all random choices: which requests are built, which are sent, how many tasks are tracked, and which cache entry is left |
| BuyerSelection.SolicitedBuyersAreConfigured | services/seller_frontend_service/select_ad_reactor.cc:458-581 | real and chaff buyers are disjoint, configured and named by the auction, the real ones exactly those with an input |
| BuyerSelection.FirstRunConservesTasks | services/seller_frontend_service/select_ad_reactor.cc:583-675 | every tracked task is one sent or skipped request, and the number sent is min(requests, cap) |
| BuyerSelection.AtMostTheCapIsSent | services/seller_frontend_service/select_ad_reactor.h:88-95 | with chaffing the number sent is min(requests, 15), without it min(requests, flag), and the rest is skipped |
| BuyerSelection.RealBuyersHaveChaff | services/seller_frontend_service/select_ad_reactor.h:88-95 | with a generator, a real buyer and a candidate, at least one chaff request is built |
| BuyerSelection.NoRealBuyersStillSendsTwoChaff | services/seller_frontend_service/select_ad_reactor.h:88-95 | with a generator, no real buyers and two candidates, at least two chaff requests go out despite cap and shuffles |
| BuyerSelection.ReplayConservesTasksIff | services/seller_frontend_service/select_ad_reactor.cc:493-500 | a replay tracks as many tasks as it builds requests iff every cached real buyer still has an input |
| BuyerSelection.ReplayCanLoseATask | services/seller_frontend_service/select_ad_reactor.cc:493-500 | a replay whose one cached real buyer has no input any more: its only run tracks one task and builds no request |
| BuyerSelection.ReplayAsksTheSameBuyers | services/seller_frontend_service/select_ad_reactor.cc:594-696 | serving a request again from the entry its first run wrote asks the same real and the same chaff buyers and skips none |
| CurrencyFilter.FilterBidsWithMismatchingCurrencyHelper | services/seller_frontend_service/select_ad_reactor.cc:1286-1313 | keeps, as a multiset, exactly the bids with no or the matching currency |
| CurrencyFilter.BuyerBids.FilterBidsWithMismatchingCurrency | services/seller_frontend_service/select_ad_reactor.cc:1315-1382 | every buyer is filtered by its own currency, buyers without enabled bids are removed, and the result is true iff a buyer is left |
| CurrencyFilter.FilteredMeans | services/seller_frontend_service/select_ad_reactor.cc:1315-1382 | a buyer is left iff it made a bid of an enabled type in its configured currency or none, and of both types exactly its bids in that currency or none are left, each as often as it was made |
| KAnonHashes.GetKAnonHashesForBids | services/seller_frontend_service/select_ad_reactor_app.cc:353-386 | exactly the bids of buyers with a report-win URL are looked up, app signals bids only for apps, each with exactly its hashes: of the render URL, of the reporting ids, and of every component |
| KAnonHashes.GetKAnonHashesForBrowserBids | services/seller_frontend_service/select_ad_reactor.cc:2112-2178 | exactly the render, reporting-id and component hashes of exactly the Protected Audience bids of buyers with a report-win URL |
| KAnonHashes.PopulateKAnonStatusForBids | services/seller_frontend_service/select_ad_reactor.cc:2077-2110 | a looked-up bid's status is true iff nothing is enforced or every hash is in the answer |
| KAnonHashes.KnowsAllIff | services/seller_frontend_service/select_ad_reactor.cc:2143-2173 | a service knows every hash of a bid iff it knows its render hash and, for Protected Audience, its reporting-id hash and the hash of each of its components |
| KAnonHashes.KAnonymousIff | services/seller_frontend_service/select_ad_reactor.cc:2077-2178 | a bid counts as k-anonymous iff it was looked up and, where enforced, the service knows its render hash and, for Protected Audience, its reporting-id hash and the hash of each of its components |
| KAnonHashes.NothingKnownNothingKAnonymous | services/seller_frontend_service/select_ad_reactor.cc:2067-2075 | a failed lookup makes no bid k-anonymous, since every looked-up bid has a hash |
| TaskTracker.AsyncTaskTracker.TaskCompleted | services/common/util/async_task_tracker.cc:40-93 | the new counts, and that the callback runs with the verdict iff nothing is pending |
| TaskTracker.FiresOnceWithTheSameVerdict | services/common/util/async_task_tracker.cc:40-116 | of n completions in any order only the last fires, and the verdict is false iff there was an error and everything else was cancelled |
| SelectAdProtocol.ReachedKeepsInv | services/seller_frontend_service/select_ad_reactor.cc:947-1818 | the phase invariant of the protocol holds after every sequence of events |
| SelectAdProtocol.AtMostOnce | services/seller_frontend_service/select_ad_reactor.cc:1179-1818 | in every interleaving at most one Finish, at most one ScoreAds call, and no task completed twice |
| SelectAdProtocol.ScoringWaitsForEverything | services/seller_frontend_service/select_ad_reactor.cc:1230-1284 | ScoreAds is called only after every buyer's task, the k-anonymity lookup and a non-empty signals fetch are done |
| SelectAdProtocol.SettledIffNothingEnabled | services/seller_frontend_service/select_ad_reactor.cc:1230-1284 | a state is settled iff no event but a cancellation can happen: no state is stuck otherwise |
| SelectAdProtocol.SettledRunHasFinishedIff | services/seller_frontend_service/select_ad_reactor.cc:1432-1529 | a settled run has finished exactly once iff no cached real buyer lost its input and, while the client had not cancelled, no fetch of the signals failed to create or send its request and no version 2 answer failed to convert |
| SelectAdProtocol.SignalsLostIff | services/seller_frontend_service/select_ad_reactor.cc:1432-1529 | the task of the signals fetch is never completed exactly in the runs that took one of those two branches, and the process aborts exactly in those that read an answer that does not convert |
| SelectAdProtocol.SignalsLostOnlyWithV2 | services/seller_frontend_service/select_ad_reactor.cc:1384-1432 | a run with version 1 of the signals fetch takes neither branch and does not abort |
| SelectAdProtocol.DroppedBuyerNeverFinishes | services/seller_frontend_service/select_ad_reactor.cc:594-646 | on such a replay, under every configuration, nothing ever happens and the RPC is never finished |
| SelectAdProtocol.LostSignalsNeverFinish | services/seller_frontend_service/select_ad_reactor.cc:1432-1484 | one bid is in and the version 2 request cannot be created or sent: nothing is left to happen, the RPC is not finished |
| SelectAdProtocol.UnconvertedSignalsNeverFinish | services/seller_frontend_service/select_ad_reactor.cc:1506-1518 | one bid is in and the version 2 answer does not convert: the process aborts, the RPC is not finished |
| SelectAdProtocol.RunsAreBounded | services/seller_frontend_service/select_ad_reactor.cc:583-1818 | every run has at most 2 * requests + 8 server events, so it settles |
| SelectAdBids.TrackerCountsSteps | services/seller_frontend_service/select_ad_reactor.cc:947-1228 | the tracker has counted exactly the completions of the steps so far, each with the status of how its call ended |
| SelectAdBids.OneCompletionPerRequest | services/seller_frontend_service/select_ad_reactor.cc:947-1228 | buyer by buyer, every request sent or tried has completed its task once or is still outstanding, and every other completion is that of a skipped request |
| SelectAdBids.RunWithoutBids | services/seller_frontend_service/select_ad_reactor.cc:1230-1258 | if no buyer answers with bids and no step of the buyers' part meets a cancellation, nothing is scored, and the RPC ends with an internal error if every buyer's call failed; otherwise with chaff, or an internal error iff the last step could not build or encrypt the response |
| SelectAdBids.ScoredBidsAreTheBuyersOwn | services/seller_frontend_service/select_ad_reactor.cc:1179-1284 | in every interleaving a buyer's bids are sent for scoring iff its first answer before a cancellation has a bid of an enabled type in the buyer's currency or none, and then exactly the answer's bids of both types in that currency or none are, each as often as it was sent |
| SelectAdScoring.AuctionIsHeldIff | services/seller_frontend_service/select_ad_reactor.cc:1539-1700 | in a settled run that met no cancellation the auction server was called exactly once iff no cached real buyer lost its input, some answer that counts holds a bid of a scored type in its buyer's currency or none, and the signals, where they are fetched, came and were not empty; otherwise not at all |
| SelectAdScoring.StatusOfTheEnd | services/seller_frontend_service/select_ad_reactor.cc:1230-1818 | whichever step of whichever run finishes the RPC: the status, from the bids, the buyers' calls, the signals and the scores if the client has not cancelled, and cancelled if it has, unless a lookup that ends the join finds no signals |
| SelectAdScoring.ScoresAreAwaitedIff | services/seller_frontend_service/select_ad_reactor.cc:1688-1700 | the step that calls the auction server leaves the RPC open iff the call succeeds |
| SelectAdScoring.ClientCancelledIff | services/seller_frontend_service/select_ad_reactor.cc:1384-1432 | the client counts as cancelled exactly after it has cancelled |
| SelectAdKAnonymity.ScoredStatusesComeFromTheService | services/seller_frontend_service/select_ad_reactor.cc:2023-2110 | whatever the order, a status sent for scoring is true iff the service answered and knows all of the bid's render, reporting-id and component hashes |
| SelectAdKAnonymity.AnswerWasBrought | services/seller_frontend_service/select_ad_reactor.cc:2048-2075 | the answer the statuses come from is the one an event of the run brought, and there is at most one |
| SelectAdKAnonymity.ServiceIsAskedIff | services/seller_frontend_service/select_ad_reactor.cc:2023-2075 | the service is asked iff some bid has hashes to look up and the call succeeds |
| KAnonymousAuction.CreateScoreAdsRequest | services/seller_frontend_service/select_ad_reactor.cc:1586-1599 | every bid of a scored type is sent exactly once, with its own group name, bid, currency, render URL and k-anonymity status under its buyer's name, and nothing else is; app signals bids are scored only for apps |
| KAnonymousAuction.SomethingIsSentIff | services/seller_frontend_service/select_ad_reactor.cc:1644-1653 | the request is empty iff no buyer left has a bid of a scored type |
| KAnonymousAuction.WinnerIsKAnonymous | services/seller_frontend_service/select_ad_reactor.cc:269-273 | enforced by both servers, a winner is a bid of which the service declared the render, reporting-id and all component hashes k-anonymous (for app signals the render hash), and a ghost winner one of which it did not |
| KAnonymousAuction.NoAnswerNoWinner | services/seller_frontend_service/select_ad_reactor.cc:2048-2075 | without an answer from the service there is no winner |
| KAnonymousAuction.RunAuction | services/auction_service/score_ads_reactor.cc:806-925 | the scoring reactor run on the seller's request ends with an outcome over ads of that request; it aborts only if some execution failed or some buyer with scored bids is missing from the per-buyer configuration |
| PAggContributions.ProcessPAggContributions | services/bidding_service/generate_bids_reactor.cc:450-472 | collecting indices and erasing them back to front is the stable filter |
| PAggContributions.KeptIsFirstOfEachType | services/bidding_service/generate_bids_reactor.cc:450-472 | of each specified type exactly the first contributions up to the limit are kept, in order |
| PAggContributions.NothingElseIsKept | services/bidding_service/generate_bids_reactor.cc:450-472 | contributions of unspecified type are gone |
| PAggContributions.KeptTwice | services/bidding_service/generate_bids_reactor.cc:450-472 | filtering again changes nothing |
| BinaryBidReactor.GenerateBidsBinaryReactor.Execute | services/bidding_service/generate_bids_binary_reactor.cc:246-284 | for every schedule of the callbacks the result is the same function of the outcomes: OK with all valid bids in group order iff some group answered, an internal error otherwise, or cancelled; the counters balance unless nothing was collected; Finish is called once, or twice with an internal error if the response cannot be encrypted |
| BinaryBidReactor.GenerateBidsBinaryReactor.CollectBids | services/bidding_service/generate_bids_binary_reactor.cc:401-440 | the valid bids of all groups in index order, and every counter |
| BinaryBidReactor.ResponseMember | services/bidding_service/generate_bids_binary_reactor.cc:111-136 | a bid is in the response iff it is valid and the first bid of some group that answered, renamed to the group |
| BinaryBidReactor.CollectionIsBalanced | services/bidding_service/generate_bids_binary_reactor.cc:401-440 | the failed-to-bid counter and the groups that answered with a bid add up to all groups, each of the latter has one bid received, every bid received is in the response or counted by its verdict, zero bids and component rejections each exactly |
| GetBidsReactor.ReachedKeepsInv | services/buyer_frontend_service/get_bids_unary_reactor.cc:445-1014 | the protocol invariant holds after every sequence of events, each counter being the number of sides that ended that way |
| GetBidsReactor.AtMostOnce | services/buyer_frontend_service/get_bids_unary_reactor.cc:589-1014 | in every interleaving at most one Finish, and no more completions than counted calls |
| GetBidsReactor.SettledRunHasFinishedIff | services/buyer_frontend_service/get_bids_unary_reactor.cc:589-802 | a settled run has finished exactly once, except that one that started to bid with every client present has never finished if a version 2 request could not be created or counted app signals input held no signals |
| GetBidsReactor.MissingSignalsNeverFinish | services/buyer_frontend_service/get_bids_unary_reactor.cc:589-640 | counted app signals input without signals in it: nothing is left to happen, the RPC is not finished |
| GetBidsReactor.LostRequestNeverFinishes | services/buyer_frontend_service/get_bids_unary_reactor.cc:766-790 | a version 2 request that cannot be created: likewise |
| GetBidsReactor.AudienceLostOnlyWithV2 | services/buyer_frontend_service/get_bids_unary_reactor.cc:766-790 | a version 2 request fails to be created only where signals are fetched and version 2 is used at once or after a hybrid call |
| GetBidsReactor.UnnoticedTrace | services/buyer_frontend_service/get_bids_unary_reactor.cc:291-330 | a run in which no step is taken after a cancellation is a run of the server with cancellation switched off |
| GetBidsReactor.FailsIffEverySideFailed | services/buyer_frontend_service/get_bids_unary_reactor.cc:291-330 | unless some step meets a cancellation, the RPC fails iff every counted side failed, with one error per side |
| GetBidsReactor.StatusOfTheEnd | services/buyer_frontend_service/get_bids_unary_reactor.cc:291-330 | whichever step of whichever run finishes the RPC: the status, as the entry checks, the missing client, the sides' failures, a cancellation and the encryption call for |
| GetBidsReactor.FinishesIffItShould | services/buyer_frontend_service/get_bids_unary_reactor.cc:291-330 | a step finishes an open RPC iff it refuses the request, sends chaff after its delay, misses a client, or ends the last counted side |
| GetBidsReactor.SidesEndAsTheirEventsSay | services/buyer_frontend_service/get_bids_unary_reactor.cc:642-1014 | each side has ended with a status iff some step of the run ended it so: errors of calls, parsing and answers, empty answers, cancellations and successes, told by the events alone |
| GetBidsReactor.ClientCancelledIff | services/buyer_frontend_service/get_bids_unary_reactor.cc:291-330 | the client counts as cancelled exactly after it has cancelled |
| GetBidsReactor.ResponseHoldsWhatWasDelivered | services/buyer_frontend_service/get_bids_unary_reactor.cc:57-90 | whatever the order, each list of the response is what its own service delivered, empty for a side that did not succeed |
| GetBidsReactor.RunsAreBounded | services/buyer_frontend_service/get_bids_unary_reactor.cc:445-1014 | every run has at most ten server events |
| PasBidReactor.FinishesExactlyOnce | services/bidding_service/protected_app_signals_generate_bids_reactor.cc:748-768 | a log that ends in Done holds exactly one Finish, as its last event |
| PasBidReactor.FinishCallsByStage | services/bidding_service/protected_app_signals_generate_bids_reactor.cc:748-768 | the stage a log leads to tells how often Finish was called: once, twice after a failed encryption, or not yet |
| PasBidReactor.GenerateBidFollowsRetrieval | services/bidding_service/protected_app_signals_generate_bids_reactor.cc:602-744 | generateBid is dispatched only after the ads were fetched, and before that prepareDataForAdRetrieval ran unless the request is contextual |
| PasBidReactor.CallsOfTheKind | services/bidding_service/protected_app_signals_generate_bids_reactor.cc:624-645 | a request that brings its own ad ids never prepares or retrieves, any other never looks its ads up by id |
| PasBidReactor.OutcomeMeans | services/bidding_service/protected_app_signals_generate_bids_reactor.cc:602-744 | a run that is not cancelled ends with the metadata error if there is one, with OK iff every call its kind of request needs went well, having no ads being no error, and with an internal error otherwise |
| PasBidReactor.PopulateSerializedEgressPayload | services/bidding_service/protected_app_signals_generate_bids_reactor.cc:437-460 | a payload field is packed under the schema iff every value fits its feature and the size is within the limit, and emptied otherwise |
| PasBidReactor.SentPayloadsFit | services/bidding_service/protected_app_signals_generate_bids_reactor.cc:437-460 | what is sent holds no payload as it was written, none of a kind that is switched off, and none larger than its limit allows |
| PasBidReactor.ProtectedAppSignalsGenerateBidsReactor.ExecuteRomaRequests | services/bidding_service/protected_app_signals_generate_bids_reactor.h:129-207 | goes on only with a parsed answer; otherwise the RPC is finished with the matching status |
| PasBidReactor.ProtectedAppSignalsGenerateBidsReactor.CollectBids | services/bidding_service/protected_app_signals_generate_bids_reactor.cc:490-534 | exactly the valid bids in order, each with both payloads packed under their own schema and limit or emptied |
| PasBidReactor.ProtectedAppSignalsGenerateBidsReactor.Execute | services/bidding_service/protected_app_signals_generate_bids_reactor.cc:702-744 | every run ends with the status and the bids its answers call for, or cancelled without bids; Finish is called once, or twice, both times with an error, if the response cannot be encrypted |

## Left out

- Debug reporting, event reporting and private-aggregation content: the helpers that fill them are not part of this
  model.
- The id read from the responses at the winner's position (services/auction_service/score_ads_reactor.cc:1738-1739) may
  be another ad's; it names private-aggregation contributions only. The reporting calls use the winner's own (line 1679).
- Building the dispatch requests of a top-level auction from component results: the dispatched ads are given.
- Base64 escaping of the payload, JSON parsing and schema validation: payloads and schemas are parsed values.
- EgressSchemaCache.GetSerializedEgressPayload: requires a cached schema that follows the schema language, a byte index
  that stays in range, and that serialization reaches no negative number in a signed field of zero or more than 32 bits,
  whose conversion has no defined result.
- EgressPacking.SerializeEgressFeatures: likewise, with the features' values already set.
- PasBidReactor.PopulateSerializedEgressPayload: likewise, for the field's own schema and limit; the reactor's
  `CollectBids` and `Execute` ask it of the payloads of valid bids only.
- Answers of user-defined functions that are JSON but no object: the helpers that read them are not part of this model.
- EgressFeatures.FeatureRoundTrip: says nothing of a histogram whose members miss their size, which the schema language
  demands.
- WinnerSelection.Swap: exchanges whole values; that the two elements share no storage is not expressed.
- WinnerSelection.SortDescending: an insertion sort stands for the library's sort, of which only the result matters.
- WinnerSelection.ChooseRandomElements: says which samples are possible, not how likely they are.
- BuyerSelection.Shuffle: any order is possible; likewise for the number of chaff requests.
- BuyerSelection.NoRealBuyersStillSendsTwoChaff: with real buyers the shuffle may push every chaff request past the cap.
- SelectAdProtocol.AtMostOnce: the reactors with concurrent callbacks are states and steps, not classes; their fields are
  values, so two names for one object are not expressed. GetBidsReactor.AtMostOnce is in the same form.
- SelectAdProtocol.ReachedKeepsInv: starts where bids are fetched; the checks before that finish the RPC at once.
- ScoreAdsReactor.ScoreAdsReactor.Execute: callbacks are nested in the calls they belong to, one being outstanding at a
  time.
- Clearing Protected App Signals inputs when the feature is off, and priority vectors: configuration of the request.
- BinaryBidReactor.GenerateBidsBinaryReactor.Execute: a request without interest groups never finishes, as in the source;
  trimming of debug URLs is not modelled.
- The counting loop over generateBid() results of the V8 bidding reactor: a single loop that would only add easy members.
- Metrics, logging, consent, compression, encryption and gRPC plumbing: no effect on the decisions modelled.
- The Microsoft build branches and the k-anonymity service itself.
