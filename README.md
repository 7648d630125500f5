# Bid responder core, modelled in Dafny

This project models the bid-decision logic of a small OpenRTB 2.5 bid
responder (the body of `BidRequestHandler` in `handler/handler.go`). The
handler receives a bid request and returns a bid response. It:

- rejects a request whose body did not decode, or whose impression list is empty;
- takes the first impression and seeds one bid from a constant campaign
  catalog keyed by impression id, or from a fixed fallback bid when the id
  is unknown;
- overwrites the bid's width, height and markup according to the
  impression's format. The cases are tried in the order banner, video,
  audio, native, and the first present object wins;
- runs the category filter over the generated bids;
- wraps the eligible bids in a fixed response envelope.

Files and modules:

- `openrtb.dfy` (`OpenRtb`): the OpenRTB 2.5 objects of sections 3.2 and 4.2,
  reduced to the fields the handler reads or writes.
- `catalog.dfy` (`Campaigns`): the campaign map, the fallback bid, the lookup and the seed bid.
- `synthesis.dfy` (`Synthesis`): the format switch. `SynthesizeBid` updates
  a local bid field by field, as the source does. It is proved against the
  relation `IsSynthesized`, which states the outcome case by case.
- `eligibility.dfy` (`Eligibility`): `containsCategory`, the filter loop as
  written, and the filter as intended.
- `response.dfy` (`Response`): the response envelope.
- `handler.dfy` (`Handler`): the whole pipeline and its error outcomes.

Modelling choices:

- Prices are natural numbers in thousandths of the currency unit (0.25 is 250, the fallback's 0.1 is 100). The handler only copies them or sets them to literals.
- Sizes are unbounded integers. The handler only copies them and compares them with 0.
- The request's `Device` is a pointer in the OpenRTB library the source uses, so it is an `Option` here. The video case with a zero width or height reads `Device.Width` (handler/handler.go:132). With no device that is a nil dereference, and the handler panics. The model makes this outcome explicit: `SynthesizeBid` returns `None` and `HandleRequest` returns `Panicked`.
- The `Ext` raw-JSON payloads are kept as the constant text `{}`.
- A failed JSON decode is an input (`decoded == None`), not a computation.

## Model

| member | source | states |
|---|---|---|
| `Campaigns.Lookup` | handler/handler.go:11-74 | a hit exactly when the id is a catalog key; the hit is that key's template, whose impression id is the key |
| `Campaigns.CatalogKeysAreImpIds` | handler/handler.go:11-74 | every catalog key equals its template's impression id |
| `Campaigns.Fallback` | handler/handler.go:109-120 | the fallback bid: id "test-bid-id-1", price 0.1, 720x80, the test creative and ad ids, the localhost markup, domain "example.com", no categories, the given impression id |
| `Campaigns.Seed` | handler/handler.go:105-121 | the bid starts as the template on a hit and as the fallback on a miss; its impression id is always the impression's id |
| `Synthesis.SynthesizeBid` | handler/handler.go:102-139 | the method never fails except on the nil-device panic, and its bid satisfies `IsSynthesized`, case by case for banner, video and the other formats |
| `Synthesis.SynthesisIsDeterministic` | handler/handler.go:105-139 | the case-by-case relation determines the bid uniquely |
| `Synthesis.CampaignFieldsSurvive` | handler/handler.go:106-107 | on a hit, id, impression id, price, creative id, ad id, domains and categories stay as in the template |
| `Synthesis.FallbackFieldsSurvive` | handler/handler.go:108-120 | on a miss, the bid carries the fallback's fixed fields (id, price, creative and ad ids, domains, no categories, ext, the localhost markup) and the impression id; it is 720x80 when no banner or video overrides the size |
| `Synthesis.BannerFirstFormatWins` | handler/handler.go:124-128 | a banner with formats imposes exactly `formats[0]`, over the catalog default and over any video; the markup is unchanged |
| `Synthesis.EmptyBannerKeepsSeed` | handler/handler.go:124-128 | a banner with zero formats leaves the seed bid unchanged, even when a video is present |
| `Synthesis.VideoMarkupIsLocalhost` | handler/handler.go:130-135 | without a banner, a video gives the localhost markup on every path, and its own size when both dimensions are non-zero |
| `Synthesis.OtherFormatsKeepSeed` | handler/handler.go:137-139 | audio, native or no format: the seed bid is returned unchanged |
| `Eligibility.ContainsCategory` | handler/handler.go:183-190 | true exactly when the category occurs in the list |
| `Eligibility.FilterAsWritten` | handler/handler.go:145-154 | the loop as written keeps every generated bid, in its order, whatever categories are blocked |
| `Eligibility.FilterEligible` | handler/handler.go:145-154 | the intended filter, short-circuiting per bid, returns exactly the bids with no blocked category, in order |
| `Eligibility.UnblockedMembership` | handler/handler.go:147-153 | a bid survives the intended filter iff it was a candidate and none of its categories is blocked |
| `Eligibility.UnblockedIsShorter` | handler/handler.go:147-153 | the intended filter never returns more bids than it was given |
| `Eligibility.UncategorisedBidsAreKept` | handler/handler.go:147-153 | bids without categories are always kept by the intended filter |
| `Eligibility.FiltersAgreeIffNothingBlocked` | handler/handler.go:147-153 | the as-written and intended filters agree iff no candidate has a blocked category |
| `Response.Assemble` | handler/handler.go:156-170 | the response echoes the request id. It has exactly one seat "Bidder" of group 0 that holds exactly the eligible bids, even when there are none. Bid id is "TEST_BID_ID", currency "USD", NBR 0, custom data empty |
| `Response.EnvelopeIsAssembled` | handler/handler.go:156-170 | every response of that shape is the assembly of its id and its bids |
| `Handler.HandleRequest` | handler/handler.go:88-170 | decode failure gives 400 "Json decode error" and an empty impression list 400 "Imp field is empty", with no response. Otherwise it panics exactly on the nil-device case. In every other case it responds with the envelope for the request id, carrying one bid synthesised from the first impression |
| `Handler.FirstCampaignExample` | handler/handler.go:12-24 | impression "imp_id_1" with no format yields "predefined-bid-id-1" at 0.25, 300x250 |
| `Handler.VideoOnDeviceExample` | handler/handler.go:130-135 | a 0x0 video on a 640x480 device matching a campaign yields 640x480 and the localhost markup |
| `Handler.FirstCampaignIsBlockedByIab1_2` | handler/handler.go:147-153 | the first campaign carries the blocked category "IAB1-2", and the intended filter drops it |

## Findings

| source | as written | input that shows it | evidently intended | confidence | as-written member | corrected member |
|---|---|---|---|---|---|---|
| handler/handler.go:148-153 | the `continue` at line 150 continues the inner loop over blocked categories, so the append at line 153 runs for every bid | request for "imp_id_1" with blocked categories ["IAB1-2"]: the bid carries "IAB1-2" and is still returned | a bid any of whose categories is blocked is left out of the response | high; not executed | `Eligibility.FilterAsWritten` (with `Handler.FirstCampaignIsBlockedByIab1_2`) | `Eligibility.FilterEligible` |

`HandleRequest` follows the source and calls `FilterAsWritten`.
`FilterEligible` is the drop-in replacement.
`FiltersAgreeIffNothingBlocked` says exactly which requests the replacement would change.

## Left out

- Server start-up and route registration (`main.go`): transport plumbing.
- The HTTP method check (handler/handler.go:77-79): it writes 405 and then carries on. That is transport behaviour, not bid logic.
- JSON decoding and encoding. A failed decode is the input `None`. The 500 on an encoding failure (handler/handler.go:172-178) is not modelled: every price is a finite literal, so encoding these values cannot fail.
- `context.Background()` and `ctx.Done()` (handler/handler.go:94, 179): they have no effect.
- Logging through `log.Printf`.
- Floating-point prices: prices are fixed-point thousandths, since they are only copied.
- The full schemas of the OpenRTB types: only the fields the handler reads or writes are modelled.
- Aliasing: the campaign bid is copied by value, but its domain and category slices share storage with the catalog. The handler never writes to them, so the model treats them as values.
