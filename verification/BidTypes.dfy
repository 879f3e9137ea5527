/** Bids as the seller front end receives them from buyers. */
module BidTypes {
  import opened Sequences

  /** An unset optional id is None; it differs from an empty one only in the k-anonymity key. */
  datatype ReportingIds = ReportingIds(
    buyerReportingId: Option<string>,
    buyerAndSellerReportingId: Option<string>,
    selectedBuyerAndSellerReportingId: Option<string>)

  datatype AdWithBid = AdWithBid(
    interestGroupName: string, bid: real, bidCurrency: string, render: string, adComponents: seq<string>,
    reportingIds: ReportingIds)

  datatype ProtectedAppSignalsAdWithBid = ProtectedAppSignalsAdWithBid(bid: real, bidCurrency: string, render: string)

  datatype GetBidsResponse = GetBidsResponse(
    bids: seq<AdWithBid>, protectedAppSignalsBids: seq<ProtectedAppSignalsAdWithBid>)

  type BuyerBidsResponseMap = map<string, GetBidsResponse>

  /** Which bid types the server takes part in. */
  datatype Features = Features(protectedAudience: bool, protectedAppSignals: bool)

  /** A response with at least one bid of an enabled type. */
  predicate HasBids(features: Features, response: GetBidsResponse) {
    (features.protectedAudience && response.bids != []) ||
    (features.protectedAppSignals && response.protectedAppSignalsBids != [])
  }
}
