/**
 The category filter. `FilterAsWritten` is the handler's loop as the source
 has it: the `continue` in the inner loop only moves on to the next blocked
 category, so the append after the inner loop always runs. `FilterEligible`
 is the rule the filter is meant to implement: a bid is dropped as soon as
 one of its categories is blocked.
 */
module Eligibility {
  import opened OpenRtb

  /** Linear search for `c` in `categories`, returning at the first match. */
  function ContainsCategory(categories: seq<Category>, c: Category): (r: bool)
    ensures r <==> c in categories
  {
    if |categories| == 0 then false
    else if categories[0] == c then true
    else ContainsCategory(categories[1..], c)
  }

  /** The handler's filter loop, as written: the blocking test has no effect on the output. */
  method FilterAsWritten(generated: seq<Bid>, blocked: seq<Category>) returns (eligible: seq<Bid>)
    ensures eligible == generated
  {
    eligible := [];
    for i := 0 to |generated|
      invariant eligible == generated[..i]
    {
      var bid := generated[i];
      for j := 0 to |blocked| {
        if ContainsCategory(bid.categories, blocked[j]) {
          continue;
        }
      }
      eligible := eligible + [bid];
    }
  }

  /** Some category of `b` is in the blocked list. */
  ghost predicate IsBlocked(b: Bid, blocked: seq<Category>) {
    exists c :: c in b.categories && c in blocked
  }

  /** The bids that carry no blocked category, in their original order. */
  ghost function Unblocked(bids: seq<Bid>, blocked: seq<Category>): seq<Bid>
    decreases |bids|
  {
    if bids == [] then []
    else
      var last := bids[|bids| - 1];
      Unblocked(bids[..|bids| - 1], blocked) + (if IsBlocked(last, blocked) then [] else [last])
  }

  /**
   The intended filter: every bid is judged on its own, the scan of its
   categories stops at the first blocked one, and kept bids stay in order.
   */
  method FilterEligible(generated: seq<Bid>, blocked: seq<Category>) returns (eligible: seq<Bid>)
    ensures eligible == Unblocked(generated, blocked)
  {
    eligible := [];
    for i := 0 to |generated|
      invariant eligible == Unblocked(generated[..i], blocked)
    {
      var bid := generated[i];
      var excluded := false;
      var j := 0;
      while j < |blocked| && !excluded
        invariant 0 <= j <= |blocked|
        invariant excluded <==> exists k :: 0 <= k < j && blocked[k] in bid.categories
      {
        if ContainsCategory(bid.categories, blocked[j]) {
          excluded := true;
        }
        j := j + 1;
      }
      assert excluded <==> IsBlocked(bid, blocked);
      if !excluded {
        eligible := eligible + [bid];
      }
      assert generated[..i + 1][..i] == generated[..i];
    }
    assert generated[..|generated|] == generated;
  }

  /** A bid is kept by the intended filter exactly when it was a candidate and none of its categories is blocked. */
  lemma {:induction false} UnblockedMembership(bids: seq<Bid>, blocked: seq<Category>, b: Bid)
    ensures b in Unblocked(bids, blocked) <==> b in bids && !IsBlocked(b, blocked)
    decreases |bids|
  {
    if bids != [] {
      var init := bids[..|bids| - 1];
      UnblockedMembership(init, blocked, b);
      assert bids == init + [bids[|bids| - 1]];
    }
  }

  /** The intended filter keeps a subsequence of its input: never more bids, and only ones it was given. */
  lemma {:induction false} UnblockedIsShorter(bids: seq<Bid>, blocked: seq<Category>)
    ensures |Unblocked(bids, blocked)| <= |bids|
    decreases |bids|
  {
    if bids != [] {
      UnblockedIsShorter(bids[..|bids| - 1], blocked);
    }
  }

  /** Bids without categories are never filtered out, whatever is blocked. */
  lemma {:induction false} UncategorisedBidsAreKept(bids: seq<Bid>, blocked: seq<Category>)
    requires forall i :: 0 <= i < |bids| ==> bids[i].categories == []
    ensures Unblocked(bids, blocked) == bids
    decreases |bids|
  {
    if bids != [] {
      var init := bids[..|bids| - 1];
      UncategorisedBidsAreKept(init, blocked);
      assert bids == init + [bids[|bids| - 1]];
    }
  }

  /**
   The as-written filter and the intended one agree exactly when no
   candidate is blocked; with a blocked candidate the source keeps a bid
   the intended rule drops.
   */
  lemma {:induction false} FiltersAgreeIffNothingBlocked(bids: seq<Bid>, blocked: seq<Category>)
    ensures Unblocked(bids, blocked) == bids <==>
              forall i :: 0 <= i < |bids| ==> !IsBlocked(bids[i], blocked)
    decreases |bids|
  {
    if bids != [] {
      var init := bids[..|bids| - 1];
      var last := bids[|bids| - 1];
      FiltersAgreeIffNothingBlocked(init, blocked);
      UnblockedIsShorter(init, blocked);
      assert bids == init + [last];
      if IsBlocked(last, blocked) {
        assert |Unblocked(bids, blocked)| < |bids|;
      } else {
        if Unblocked(bids, blocked) == bids {
          assert Unblocked(init, blocked) == Unblocked(bids, blocked)[..|bids| - 1];
        }
      }
    }
  }
}
