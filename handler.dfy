/**
 The bid-request handler once the HTTP and JSON layers are stripped away:
 reject a failed decode or an empty impression list, synthesise one bid for
 the first impression, run the category filter over it, and assemble the
 response.
 */
module Handler {
  import opened OpenRtb
  import opened Campaigns
  import opened Synthesis
  import opened Eligibility
  import opened Response

  const StatusBadRequest: int := 400
  const DecodeErrorBody: string := "Json decode error"
  const EmptyImpBody: string := "Imp field is empty"

  /** What the handler does with one request. */
  datatype Outcome =
    | Responded(response: BidResponse)    // status 200 with the JSON-encoded response
    | Rejected(status: int, body: string) // an error status with a plain-text body
    | Panicked                            // a runtime panic: no response is written

  /**
   Handles one request; `decoded` is `None` when the body did not decode.
   The response holds the synthesised bid of the first impression, kept by
   the filter as the source has it.
   */
  method HandleRequest(decoded: Option<BidRequest>) returns (out: Outcome)
    ensures decoded.None? ==> out == Rejected(StatusBadRequest, DecodeErrorBody)
    ensures decoded.Some? && decoded.value.imps == [] ==>
              out == Rejected(StatusBadRequest, EmptyImpBody)
    ensures decoded.Some? && decoded.value.imps != [] ==>
              var req := decoded.value;
              && (out.Panicked? <==> DereferencesNilDevice(req.imps[0], req.device))
              && (out.Responded? <==> !DereferencesNilDevice(req.imps[0], req.device))
              && (out.Responded? ==>
                    && IsEnvelope(out.response)
                    && out.response.id == req.id
                    && |out.response.seatBids[0].bids| == 1
                    && IsSynthesized(req.imps[0], req.device, out.response.seatBids[0].bids[0]))
  {
    if decoded.None? {
      return Rejected(StatusBadRequest, DecodeErrorBody);
    }
    var req := decoded.value;
    if |req.imps| == 0 {
      return Rejected(StatusBadRequest, EmptyImpBody);
    }
    var imp := req.imps[0];
    var synthesized := SynthesizeBid(imp, req.device);
    if synthesized.None? {
      return Panicked;
    }
    var generated := [synthesized.value];
    var eligible := FilterAsWritten(generated, req.blockedCategories);
    out := Responded(Assemble(req.id, eligible));
  }

  /**
   The example request {id "r1", one impression "imp_id_1" without format,
   device 0x0, no blocked category}: whatever bid synthesis yields is the
   first campaign at its default size.
   */
  lemma FirstCampaignExample(b: Bid)
    requires IsSynthesized(Impression("imp_id_1", None, None, false, false), Some(Device(0, 0)), b)
    ensures b.id == "predefined-bid-id-1" && b.price == 250
    ensures b.width == 300 && b.height == 250
  {
  }

  /**
   A video impression 0x0 matching a campaign, on a 640x480 device: the bid
   takes the device size and the localhost markup.
   */
  lemma VideoOnDeviceExample(b: Bid)
    requires IsSynthesized(Impression("imp_id_2", None, Some(Video(0, 0)), false, false),
                           Some(Device(640, 480)), b)
    ensures b.width == 640 && b.height == 480
    ensures b.adMarkup == LocalhostMarkup && b.id == "predefined-bid-id-2"
  {
  }

  /**
   The category filter as written keeps a bid the intended rule drops: the
   first campaign carries "IAB1-2", and blocking "IAB1-2" removes it from
   `Unblocked` while `FilterAsWritten` returns its input unchanged.
   */
  lemma FirstCampaignIsBlockedByIab1_2()
    ensures ContainsCategory(Catalog["imp_id_1"].categories, "IAB1-2")
    ensures IsBlocked(Catalog["imp_id_1"], ["IAB1-2"])
    ensures Unblocked([Catalog["imp_id_1"]], ["IAB1-2"]) == []
  {
    var b := Catalog["imp_id_1"];
    assert "IAB1-2" in b.categories && "IAB1-2" in ["IAB1-2"];
    assert [b][..0] == [];
  }
}
