/**
 The campaign catalog: a constant map from impression id to a template bid,
 and the fallback bid used when an impression id is not in the map.
 */
module Campaigns {
  import opened OpenRtb

  /** The predefined campaigns, keyed by impression id. */
  const Catalog: map<string, Bid> := map[
    "imp_id_1" := Bid(
      "predefined-bid-id-1", "imp_id_1", 250, "creative-123", 300, 250,
      "<html><a href=\"//example.com\"><img src=\"//example.com/ad.img\"></a></html>",
      "ad-12345", ["example.com"], ["IAB1-1", "IAB1-2"], EmptyObject),
    "imp_id_2" := Bid(
      "predefined-bid-id-2", "imp_id_2", 150, "creative-456", 728, 90,
      "<html><a href=\"//example.com\"><img src=\"//example.com/ad2.img\"></a></html>",
      "ad-67890", ["example.com"], ["IAB1-2", "IAB-4"], EmptyObject),
    "imp_id_3" := Bid(
      "predefined-bid-id-3", "imp_id_3", 120, "creative-789", 160, 600,
      "<html><a href=\"//example.com\"><img src=\"//example.com/ad3.img\"></a></html>",
      "ad-45678", ["example.com"], [], EmptyObject),
    "imp_id_4" := Bid(
      "predefined-bid-id-4", "imp_id_4", 180, "creative-890", 300, 600,
      "<html><a href=\"//example.com\"><img src=\"//example.com/ad4.img\"></a></html>",
      "ad-23456", ["example.com"], [], EmptyObject),
    "imp_id_5" := Bid(
      "predefined-bid-id-5", "imp_id_5", 200, "creative-567", 320, 50,
      "<html><a href=\"//example.com\"><img src=\"//example.com/ad5.img\"></a></html>",
      "ad-78901", ["example.com"], [], EmptyObject)
  ]

  /** The markup of the fallback bid, also written into every video bid. */
  const LocalhostMarkup: string :=
    "<html><a href=\"//localhost\"><img src=\"//localhost/ad.img\"></a></html>"

  /** The bid built for an impression id that has no campaign. */
  function Fallback(impId: string): (b: Bid)
    ensures b.impId == impId
    ensures b.id == "test-bid-id-1" && b.price == 100
    ensures b.creativeId == "test-creative-id-1" && b.adId == "test-ad-id-12345"
    ensures b.width == 720 && b.height == 80
    ensures b.adMarkup == LocalhostMarkup
    ensures b.advDomains == ["example.com"] && b.categories == [] && b.ext == EmptyObject
  {
    Bid("test-bid-id-1", impId, 100, "test-creative-id-1", 720, 80,
        LocalhostMarkup, "test-ad-id-12345", ["example.com"], [], EmptyObject)
  }

  /** Reads the catalog; absence is an ordinary outcome. */
  function Lookup(impId: string): (r: Option<Bid>)
    ensures r.Some? <==> impId in Catalog
    ensures r.Some? ==> r.value == Catalog[impId] && r.value.impId == impId
  {
    if impId in Catalog then Some(Catalog[impId]) else None
  }

  /** The bid the handler starts from: the campaign on a hit, the fallback on a miss. */
  function Seed(impId: string): (b: Bid)
    ensures b.impId == impId
    ensures impId in Catalog ==> b == Catalog[impId]
    ensures impId !in Catalog ==> b == Fallback(impId)
  {
    match Lookup(impId)
    case Some(template) => template
    case None => Fallback(impId)
  }

  /** Every catalog key is the impression id of its own template. */
  lemma CatalogKeysAreImpIds()
    ensures forall k :: k in Catalog ==> Catalog[k].impId == k
  {
  }
}
