/**
 Bid synthesis: seed a bid from the catalog (or the fallback) for the first
 impression, then overwrite its size and markup according to the
 impression's format. The format cases are tried in the order banner,
 video, audio, native, and the first present one wins.
 */
module Synthesis {
  import opened OpenRtb
  import opened Campaigns

  /** The fields the format switch never writes. */
  predicate SameUnsized(a: Bid, b: Bid) {
    && a.id == b.id && a.impId == b.impId && a.price == b.price
    && a.creativeId == b.creativeId && a.adId == b.adId
    && a.advDomains == b.advDomains && a.categories == b.categories && a.ext == b.ext
  }

  /** A video slot with an omitted (zero) width or height. */
  predicate VideoNeedsDevice(v: Video) {
    v.width == 0 || v.height == 0
  }

  /**
   The video case needs the device's size and there is no device: the
   source dereferences a nil pointer there and the handler panics.
   */
  predicate DereferencesNilDevice(imp: Impression, device: Option<Device>) {
    imp.banner.None? && imp.video.Some? && VideoNeedsDevice(imp.video.value) && device.None?
  }

  /**
   What the handler's synthesis produces for `imp`, stated field by field
   against the seed bid: which case of the format switch applies, and
   what it writes.
   */
  ghost predicate IsSynthesized(imp: Impression, device: Option<Device>, b: Bid) {
    var seed := Seed(imp.id);
    && SameUnsized(b, seed)
    && (imp.banner.Some? ==>
          var formats := imp.banner.value.formats;
          b.adMarkup == seed.adMarkup
          && (if |formats| > 0 then b.width == formats[0].width && b.height == formats[0].height
              else b.width == seed.width && b.height == seed.height))
    && (imp.banner.None? && imp.video.Some? ==>
          var v := imp.video.value;
          b.adMarkup == LocalhostMarkup
          && (if VideoNeedsDevice(v)
              then device.Some? && b.width == device.value.width && b.height == device.value.height
              else b.width == v.width && b.height == v.height))
    && (imp.banner.None? && imp.video.None? ==> b == seed)
  }

  /**
   Builds the one bid of a request for its first impression. `None` stands
   for the nil-device panic; every other impression yields a bid.
   */
  method SynthesizeBid(imp: Impression, device: Option<Device>) returns (res: Option<Bid>)
    ensures res.None? <==> DereferencesNilDevice(imp, device)
    ensures res.Some? ==> IsSynthesized(imp, device, res.value)
    ensures res.Some? ==> res.value.impId == imp.id
  {
    var bid: Bid;
    var found := Lookup(imp.id);
    if found.Some? {
      bid := found.value;
    } else {
      bid := Fallback(imp.id);
    }

    if imp.banner.Some? {
      var formats := imp.banner.value.formats;
      if |formats| > 0 {
        bid := bid.(width := formats[0].width);
        bid := bid.(height := formats[0].height);
      }
    } else if imp.video.Some? {
      bid := bid.(width := imp.video.value.width, height := imp.video.value.height);
      if bid.width == 0 || bid.height == 0 {
        if device.None? {
          return None;
        }
        bid := bid.(width := device.value.width);
        bid := bid.(height := device.value.height);
      }
      bid := bid.(adMarkup := LocalhostMarkup);
    } else if imp.hasAudio {
    } else if imp.hasNative {
    }
    res := Some(bid);
  }

  /** The relation above determines the bid: synthesis is a function of its inputs. */
  lemma SynthesisIsDeterministic(imp: Impression, device: Option<Device>, a: Bid, b: Bid)
    requires IsSynthesized(imp, device, a) && IsSynthesized(imp, device, b)
    ensures a == b
  {
  }

  /** On a catalog hit the bid keeps the campaign's id, price, creative, ad id, domains and categories. */
  lemma CampaignFieldsSurvive(imp: Impression, device: Option<Device>, b: Bid)
    requires IsSynthesized(imp, device, b)
    requires imp.id in Catalog
    ensures var t := Catalog[imp.id];
      && b.id == t.id && b.impId == t.impId == imp.id && b.price == t.price
      && b.creativeId == t.creativeId && b.adId == t.adId
      && b.advDomains == t.advDomains && b.categories == t.categories
  {
  }

  /**
   On a catalog miss the bid is the fallback bar its size: the fallback's
   markup is the localhost markup the video case writes anyway.
   */
  lemma FallbackFieldsSurvive(imp: Impression, device: Option<Device>, b: Bid)
    requires IsSynthesized(imp, device, b)
    requires imp.id !in Catalog
    ensures b.id == "test-bid-id-1" && b.impId == imp.id && b.price == 100
    ensures b.creativeId == "test-creative-id-1" && b.adId == "test-ad-id-12345"
    ensures b.advDomains == ["example.com"] && b.categories == [] && b.ext == EmptyObject
    ensures b.adMarkup == LocalhostMarkup
    ensures imp.banner.None? && imp.video.None? ==> b.width == 720 && b.height == 80
  {
  }

  /** Audio, native or no format at all: the seed bid goes out as it is. */
  lemma OtherFormatsKeepSeed(imp: Impression, device: Option<Device>, b: Bid)
    requires IsSynthesized(imp, device, b)
    requires imp.banner.None? && imp.video.None?
    ensures b == Seed(imp.id)
  {
  }

  /** A banner with at least one format imposes its first format, whatever the seed and any video say. */
  lemma BannerFirstFormatWins(imp: Impression, device: Option<Device>, b: Bid)
    requires IsSynthesized(imp, device, b)
    requires imp.banner.Some? && |imp.banner.value.formats| > 0
    ensures b.width == imp.banner.value.formats[0].width
    ensures b.height == imp.banner.value.formats[0].height
    ensures b.adMarkup == Seed(imp.id).adMarkup
  {
  }

  /** A banner without formats leaves the seed untouched, even when a video is present too. */
  lemma EmptyBannerKeepsSeed(imp: Impression, device: Option<Device>, b: Bid)
    requires IsSynthesized(imp, device, b)
    requires imp.banner.Some? && imp.banner.value.formats == []
    ensures b == Seed(imp.id)
  {
  }

  /** Without a banner, a video always gets the localhost markup, on a catalog hit as on a miss. */
  lemma VideoMarkupIsLocalhost(imp: Impression, device: Option<Device>, b: Bid)
    requires IsSynthesized(imp, device, b)
    requires imp.banner.None? && imp.video.Some?
    ensures b.adMarkup == LocalhostMarkup
    ensures !VideoNeedsDevice(imp.video.value) ==>
              b.width == imp.video.value.width && b.height == imp.video.value.height
  {
  }
}
