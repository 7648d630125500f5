/**
 Response assembly: a fixed envelope around the request id and the
 eligible bids.
 */
module Response {
  import opened OpenRtb

  const SeatName: string := "Bidder"
  const ResponseBidId: string := "TEST_BID_ID"
  const Currency: string := "USD"

  /** The envelope's invariant shape: one seat "Bidder" of group 0, and the fixed response-level fields. */
  predicate IsEnvelope(r: BidResponse) {
    && |r.seatBids| == 1
    && r.seatBids[0].seat == SeatName && r.seatBids[0].group == 0
    && r.bidId == ResponseBidId && r.currency == Currency
    && r.customData == "" && r.nbr == 0 && r.ext == EmptyObject
  }

  /**
   The response for `requestId`: an empty eligible list still yields the one
   seat, with no bids, and the response carries exactly the eligible bids.
   */
  function Assemble(requestId: string, eligible: seq<Bid>): (r: BidResponse)
    ensures IsEnvelope(r)
    ensures r.id == requestId
    ensures r.seatBids[0].bids == eligible
  {
    BidResponse(
      requestId,
      [SeatBid(SeatName, 0, eligible)],
      ResponseBidId,
      Currency,
      "",
      0,
      EmptyObject)
  }

  /** An envelope is determined by its id and its bids, so assembly loses nothing. */
  lemma EnvelopeIsAssembled(r: BidResponse)
    requires IsEnvelope(r)
    ensures r == Assemble(r.id, r.seatBids[0].bids)
  {
  }
}
