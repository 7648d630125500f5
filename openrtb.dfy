/**
 The subset of the OpenRTB 2.5 objects that the bid handler reads or writes:
 BidRequest, Imp, Banner, Format, Video and Device (section 3.2) and
 BidResponse, SeatBid and Bid (section 4.2). Every other field of those
 objects is never looked at by the handler and is not modelled.
 */
module OpenRtb {

  datatype Option<+T> = None | Some(value: T)

  /** A content category code such as "IAB1-2". */
  type Category = string

  /** A bid price in thousandths of the currency unit; the handler only copies prices or sets them to literals. */
  type Price = nat

  /** One (w, h) size a banner slot accepts. */
  datatype Format = Format(width: int, height: int)

  /** The banner object; `formats` is in the order the requester declared it. */
  datatype Banner = Banner(formats: seq<Format>)

  /** The video object; 0 stands for an omitted dimension. */
  datatype Video = Video(width: int, height: int)

  /**
   An impression. The banner and video objects are optional (nil pointers
   in the source); of the audio and native objects only their presence
   matters to the handler.
   */
  datatype Impression = Impression(
    id: string,
    banner: Option<Banner>,
    video: Option<Video>,
    hasAudio: bool,
    hasNative: bool)

  datatype Device = Device(width: int, height: int)

  /** A decoded bid request; `device` is optional, as the source's pointer is. */
  datatype BidRequest = BidRequest(
    id: string,
    imps: seq<Impression>,
    device: Option<Device>,
    blockedCategories: seq<Category>)

  /** A bid. `ext` is the raw JSON extension payload, kept as its text. */
  datatype Bid = Bid(
    id: string,
    impId: string,
    price: Price,
    creativeId: string,
    width: int,
    height: int,
    adMarkup: string,
    adId: string,
    advDomains: seq<string>,
    categories: seq<Category>,
    ext: string)

  datatype SeatBid = SeatBid(seat: string, group: int, bids: seq<Bid>)

  datatype BidResponse = BidResponse(
    id: string,
    seatBids: seq<SeatBid>,
    bidId: string,
    currency: string,
    customData: string,
    nbr: int,
    ext: string)

  /** The text of an empty JSON object, the only extension payload the handler produces. */
  const EmptyObject: string := "{}"
}
