/** Plain records of the scoring reactor: what scoreAd() returned for an ad, and how ads are compared. */
module AuctionTypes {
  import opened Sequences

  datatype AuctionScope = SingleSeller | DeviceComponent | ServerComponent | TopLevel

  predicate IsComponentAuction(scope: AuctionScope) {
    scope.DeviceComponent? || scope.ServerComponent?
  }

  /** NotAvailable is the enum's zero value; SellerReason stands for every other reason a seller can name. */
  datatype SellerRejectionReason =
    | NotAvailable
    | InvalidBid
    | BidFromScoreAdFailedCurrencyCheck
    | SellerReason(code: nat)

  datatype AdRejectionReason = AdRejectionReason(owner: string, name: string, reason: SellerRejectionReason)

  /** scoreAd() returns either a bare number or an object that may carry a reject reason. */
  datatype ScoreAdJson = Number | Object(rejectReason: Option<SellerRejectionReason>)

  /** Scores and bids are reals; an unset string field is the empty string. */
  datatype AdScore = AdScore(
    owner: string,
    name: string,
    desirability: real,
    bid: real,
    bidCurrency: string,
    buyerBid: real,
    buyerBidCurrency: string,
    incomingBidInSellerCurrency: real,
    allowComponentAuction: bool)

  /** An ad as the seller's request describes it; kAnon says whether it met the k-anonymity threshold. */
  datatype AdWithBidMetadata =
    | ProtectedAudience(owner: string, name: string, bid: real, bidCurrency: string, render: string, kAnon: bool)
    | ProtectedAppSignals(owner: string, bid: real, bidCurrency: string, render: string, kAnon: bool)

  datatype ScoredAd = ScoredAd(id: string, score: AdScore, json: ScoreAdJson, kAnon: bool)

  /** The parts of a ScoreAds request that decide who wins. */
  datatype Auction = Auction(scope: AuctionScope, sellerCurrency: string, numAllowedGhostWinners: nat)

  /** The conversion of a float score to an int argument: truncation toward zero. */
  function Trunc(x: real): int {
    if x >= 0.0 then x.Floor else -((-x).Floor)
  }

  predicate Integral(x: real) {
    x == x.Floor as real
  }

  predicate IsInt32(i: int) {
    -0x8000_0000 <= i < 0x8000_0000
  }

  predicate InIntRange(x: real) {
    IsInt32(Trunc(x))
  }

  /** The scores whose conversion is defined: those that truncate to a 32-bit number. */
  lemma InIntRangeMeans(x: real)
    ensures InIntRange(x) <==> -2147483649.0 < x < 2147483648.0
    ensures x >= 0.0 ==> 0.0 <= Trunc(x) as real <= x < Trunc(x) as real + 1.0
    ensures x <= 0.0 ==> Trunc(x) as real - 1.0 < x <= Trunc(x) as real <= 0.0
  {
  }

  /** A score that is too large for an int may convert to any int: the source language leaves the result open. */
  predicate ConvertsTo(x: real, i: int) {
    IsInt32(i) && (InIntRange(x) ==> i == Trunc(x))
  }

  /** ScoredAdData::operator>. */
  predicate Outranks(a: ScoredAd, b: ScoredAd) {
    if a.score.desirability > b.score.desirability then true
    else if a.score.desirability == b.score.desirability then
      if a.score.buyerBid > b.score.buyerBid then true
      else if a.score.buyerBid == b.score.buyerBid then a.kAnon && !b.kAnon
      else false
    else false
  }

  /** What std::sort needs of its comparator, and that a tie means equal keys. */
  lemma OutranksIsStrictWeakOrder(a: ScoredAd, b: ScoredAd, c: ScoredAd)
    ensures !Outranks(a, a)
    ensures Outranks(a, b) && Outranks(b, c) ==> Outranks(a, c)
    ensures !Outranks(a, b) && !Outranks(b, c) ==> !Outranks(a, c)
    ensures !Outranks(a, b) && !Outranks(b, a) <==>
            a.score.desirability == b.score.desirability && a.score.buyerBid == b.score.buyerBid && a.kAnon == b.kAnon
  {
  }
}
