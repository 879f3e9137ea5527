/** Which scored ads the auction keeps, and with which bid and currency. */
module AdRejection {
  import opened Sequences
  import opened AuctionTypes

  const CURRENCY_EPSILON: real := 0.00001

  function Abs(x: real): real {
    if x < 0.0 then -x else x
  }

  predicate IsIncomingBidInSellerCurrencyIllegallyModified(
    sellerCurrency: string, adWithBidCurrency: string, incomingBidInSellerCurrency: real, buyerBid: real)
  {
    sellerCurrency != "" && adWithBidCurrency != "" &&
    sellerCurrency == adWithBidCurrency &&
    incomingBidInSellerCurrency > CURRENCY_EPSILON &&
    Abs(incomingBidInSellerCurrency - buyerBid) > CURRENCY_EPSILON
  }

  predicate IsBidCurrencyMismatched(
    scope: AuctionScope, sellerCurrency: string, modifiedBid: real, modifiedBidCurrency: string)
  {
    IsComponentAuction(scope) && sellerCurrency != "" &&
    modifiedBid > 0.0 && modifiedBidCurrency != "" &&
    modifiedBidCurrency != sellerCurrency
  }

  /** In a component auction a bid that scoreAd() did not modify falls back to the buyer's bid and currency. */
  function CheckAndUpdateModifiedBid(
    scope: AuctionScope, buyerBid: real, adWithBidCurrency: string, score: AdScore): AdScore
  {
    if IsComponentAuction(scope) && score.bid <= 0.0 then
      if buyerBid > 0.0 then
        score.(bid := buyerBid, bidCurrency := if adWithBidCurrency != "" then adWithBidCurrency else "")
      else score
    else score
  }

  /** The last matching check decides: currency, then illegal modification, then the score's sign. */
  function GetAdRejectionReason(auction: Auction, json: ScoreAdJson, score: AdScore): Option<AdRejectionReason> {
    var parsed := match json
      case Number => None
      case Object(None) => None
      case Object(Some(reason)) => Some(AdRejectionReason(score.owner, score.name, reason));
    if IsBidCurrencyMismatched(auction.scope, auction.sellerCurrency, score.bid, score.bidCurrency) then
      Some(AdRejectionReason(score.owner, score.name, BidFromScoreAdFailedCurrencyCheck))
    else if IsIncomingBidInSellerCurrencyIllegallyModified(
      auction.sellerCurrency, score.buyerBidCurrency, score.incomingBidInSellerCurrency, score.buyerBid) then
      Some(AdRejectionReason(score.owner, score.name, InvalidBid))
    else if score.desirability <= 0.0 then
      Some(AdRejectionReason(score.owner, score.name, NotAvailable))
    else
      parsed
  }

  function Examine(auction: Auction, ad: ScoredAd): ScoredAd {
    ad.(score := CheckAndUpdateModifiedBid(auction.scope, ad.score.buyerBid, ad.score.buyerBidCurrency, ad.score))
  }

  /** The reason recorded for an ad, if the ad is dropped for a reason other than NotAvailable. */
  function RecordedReason(auction: Auction, ad: ScoredAd): Option<AdRejectionReason> {
    var examined := Examine(auction, ad);
    var reason := GetAdRejectionReason(auction, examined.json, examined.score);
    if reason.Some? && reason.value.reason != NotAvailable then reason else None
  }

  predicate NotAllowedInComponentAuction(auction: Auction, ad: ScoredAd) {
    auction.scope.DeviceComponent? && !ad.score.allowComponentAuction
  }

  function Survivor(auction: Auction, ad: ScoredAd): Option<ScoredAd> {
    if RecordedReason(auction, ad).Some? || NotAllowedInComponentAuction(auction, ad) then None
    else Some(Examine(auction, ad))
  }

  function Survivors(auction: Auction, ads: seq<ScoredAd>): seq<ScoredAd> {
    FilterMap(ad => Survivor(auction, ad), ads)
  }

  function RecordedReasons(auction: Auction, ads: seq<ScoredAd>): seq<AdRejectionReason> {
    FilterMap(ad => RecordedReason(auction, ad), ads)
  }

  // ---------- what is recorded, and what is dropped ----------

  /** In a component auction the buyer's positive bid stands in for a bid that scoreAd() left unset. */
  predicate FallsBack(auction: Auction, ad: ScoredAd) {
    auction.scope in {DeviceComponent, ServerComponent} && ad.score.bid <= 0.0 < ad.score.buyerBid
  }

  /** A positive bid in a component auction, in a currency other than the seller's. */
  predicate WrongCurrency(auction: Auction, ad: ScoredAd) {
    var bid := if FallsBack(auction, ad) then ad.score.buyerBid else ad.score.bid;
    var currency := if FallsBack(auction, ad) then ad.score.buyerBidCurrency else ad.score.bidCurrency;
    auction.scope in {DeviceComponent, ServerComponent} && auction.sellerCurrency != "" && bid > 0.0 &&
    currency !in {"", auction.sellerCurrency}
  }

  /** The buyer already bid in the seller's currency, and scoreAd() converted that to something else. */
  predicate Tampered(auction: Auction, ad: ScoredAd) {
    var converted, bid := ad.score.incomingBidInSellerCurrency, ad.score.buyerBid;
    auction.sellerCurrency == ad.score.buyerBidCurrency != "" && converted > 0.00001 &&
    (converted < bid - 0.00001 || converted > bid + 0.00001)
  }

  /** The reason the seller gave for a positively scored ad, if it gave one. */
  function SellersReason(ad: ScoredAd): Option<SellerRejectionReason> {
    if ad.score.desirability > 0.0 && ad.json.Object? && ad.json.rejectReason.Some? &&
       ad.json.rejectReason.value != NotAvailable
    then ad.json.rejectReason
    else None
  }

  /** The reason the documentation calls for, in the order in which the checks count. */
  function ReasonDue(auction: Auction, ad: ScoredAd): Option<AdRejectionReason> {
    var due :=
      if WrongCurrency(auction, ad) then Some(BidFromScoreAdFailedCurrencyCheck)
      else if Tampered(auction, ad) then Some(InvalidBid)
      else SellersReason(ad);
    match due
    case None => None
    case Some(reason) => Some(AdRejectionReason(ad.score.owner, ad.score.name, reason))
  }

  /** The whole recorded reason, from the ad as it was scored. */
  lemma RecordedReasonIsDue(auction: Auction, ad: ScoredAd)
    ensures RecordedReason(auction, ad) == ReasonDue(auction, ad)
  {
  }

  /** A seller's own reason counts only with a positive score; the currency checks count always. */
  lemma DroppedIff(auction: Auction, ad: ScoredAd)
    ensures RecordedReason(auction, ad).Some? <==>
              WrongCurrency(auction, ad) || Tampered(auction, ad) || SellersReason(ad).Some?
    ensures Survivor(auction, ad).None? <==>
              || WrongCurrency(auction, ad) || Tampered(auction, ad) || SellersReason(ad).Some?
              || (auction.scope.DeviceComponent? && !ad.score.allowComponentAuction)
  {
    RecordedReasonIsDue(auction, ad);
  }

  function ReasonsDue(auction: Auction, ads: seq<ScoredAd>): seq<AdRejectionReason> {
    FilterMap(ad => ReasonDue(auction, ad), ads)
  }

  /** All reasons that are recorded, in the order of the ads. */
  lemma {:induction false} RecordedReasonsAreDue(auction: Auction, ads: seq<ScoredAd>)
    ensures RecordedReasons(auction, ads) == ReasonsDue(auction, ads)
  {
    if ads != [] {
      RecordedReasonIsDue(auction, ads[0]);
      RecordedReasonsAreDue(auction, ads[1..]);
    }
  }

  /** What becomes of a surviving ad: only the bid and its currency may change, and only by falling back. */
  lemma SurvivorIsTheAd(auction: Auction, ad: ScoredAd)
    requires Survivor(auction, ad).Some?
    ensures var kept := Survivor(auction, ad).value;
      && kept == ad.(score := ad.score.(bid := kept.score.bid, bidCurrency := kept.score.bidCurrency))
      && (FallsBack(auction, ad) ==>
            kept.score.bid == ad.score.buyerBid && kept.score.bidCurrency == ad.score.buyerBidCurrency)
      && (!FallsBack(auction, ad) ==>
            kept.score.bid == ad.score.bid && kept.score.bidCurrency == ad.score.bidCurrency)
  {
  }

  /** A seller's reason for an ad that scored zero or less is never recorded. */
  lemma NonPositiveScoreHidesSellerReason(auction: Auction, ad: ScoredAd, reason: SellerRejectionReason)
    requires ad.score.desirability <= 0.0
    ensures RecordedReason(auction, ad) == RecordedReason(auction, ad.(json := Object(Some(reason))))
  {
  }

  /** Component auctions never let a positive bid in a foreign currency through, nor lose a positive buyer bid. */
  lemma SurvivorsCarrySellerCurrency(auction: Auction, ads: seq<ScoredAd>, kept: ScoredAd)
    requires IsComponentAuction(auction.scope)
    requires kept in Survivors(auction, ads)
    ensures auction.sellerCurrency != "" && kept.score.bid > 0.0 ==>
              kept.score.bidCurrency == "" || kept.score.bidCurrency == auction.sellerCurrency
    ensures kept.score.buyerBid > 0.0 ==> kept.score.bid > 0.0
    ensures exists ad :: ad in ads && ad.id == kept.id && ad.kAnon == kept.kAnon &&
              ad.score.desirability == kept.score.desirability &&
              (kept.score == ad.score ||
               (ad.score.bid <= 0.0 && kept.score.bid == ad.score.buyerBid &&
                kept.score.bidCurrency == ad.score.buyerBidCurrency))
  {
    FilterMapMember(ad => Survivor(auction, ad), ads, kept);
    var ad :| ad in ads && Survivor(auction, ad) == Some(kept);
  }
}
