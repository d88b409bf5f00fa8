/** Some of the cases of tests/test_ad_auction.py and
    tests/test_experiments_and_ad_auction_coverage.py, stated over the model.
    Each lemma fixes the bidders' targeting and states, for every value of the
    random tie-break draws, what the test checks: the winners and prices of
    `assign`, the error raised, the spots `AdSpot` rejects, or the shape of a
    platform batch. */
module Scenarios {
  import opened Common
  import opened AdAuction
  import opened AuctionProperties
  import Platforms

  /** The valuation the tests use: the bidder's value for each of the spot's
      tags times the CTR of the matching slot, summed (Python's `zip` stops
      at the shorter list). */
  function SimpleValuation(b: Bidder, spot: AdSpot, ctrs: seq<real>): real
  {
    TagSum(b.targeting, spot.tags, ctrs)
  }

  function TagSum(targeting: map<string, real>, tags: seq<string>, ctrs: seq<real>): real
  {
    if |tags| == 0 || |ctrs| == 0 then 0.0
    else (if tags[0] in targeting then targeting[tags[0]] else 0.0) * ctrs[0] + TagSum(targeting, tags[1..], ctrs[1..])
  }

  /** With one tag the valuation is the tag's value times the first slot's CTR. */
  lemma OneTagValuation(b: Bidder, spot: AdSpot, quality: real)
    requires |spot.tags| == 1 && |spot.pos| >= 1
    ensures SimpleValuation(b, spot, Ctrs(quality, spot.pos))
            == (if spot.tags[0] in b.targeting then b.targeting[spot.tags[0]] else 0.0) * (quality * spot.pos[0])
  {
    var ctrs := Ctrs(quality, spot.pos);
    assert TagSum(b.targeting, spot.tags[1..], ctrs[1..]) == 0.0;
  }

  /** A truthful bidder's entry on a one-tag spot whose first slot has
      weight 1.0, under the default quality 1.0: it bids its value for the tag. */
  lemma TruthfulOneTagEntry(spot: AdSpot, bs: seq<Bidder>, k: nat)
    requires |spot.tags| == 1 && |spot.pos| >= 1 && spot.pos[0] == 1.0
    requires k < |bs| && bs[k].bidFunc.None? && spot.tags[0] in bs[k].targeting
    ensures EntryFor(spot, bs, DefaultQualities(|bs|), SimpleValuation, k)
            == Entry(bs[k], bs[k].targeting[spot.tags[0]], bs[k].targeting[spot.tags[0]], 1.0)
  {
    OneTagValuation(bs[k], spot, 1.0);
  }

  /** When every bidder is eligible and the entries strictly decrease in
      score, the auction allocates the entries in bidder order, whatever the draws. */
  lemma DecreasingAuction(spot: AdSpot, bs: seq<Bidder>, kind: Method, es: seq<Entry>, draw: nat -> real)
    requires |es| == |bs|
    requires forall k :: 0 <= k < |bs| ==> EntryFor(spot, bs, DefaultQualities(|bs|), SimpleValuation, k) == es[k]
    requires forall k :: 0 <= k < |es| ==> es[k].val > 0.0
    requires forall i, j :: 0 <= i < j < |es| ==> es[i].Score() > es[j].Score()
    requires es != []
    ensures AuctionOutcome(spot, bs, MethodName(kind), Some(SimpleValuation), None, draw)
            == Success(Allocate(kind, es, spot.numSlots))
  {
    var q := DefaultQualities(|bs|);
    AllPositiveAllEligible(spot, bs, q, SimpleValuation, |bs|);
    assert Eligible(spot, bs, q, SimpleValuation) == es;
    RankKeepsDecreasing(es, draw);
    ParseMethodName(kind);
  }

  /** First price, one slot, values 3.0 and 2.0: A wins and pays 3.0. */
  lemma FirstPriceOneSlot(a: Bidder, b: Bidder, draw: nat -> real)
    requires a.targeting == map["t" := 3.0] && b.targeting == map["t" := 2.0]
    requires a.bidFunc.None? && b.bidFunc.None?
    ensures NewAdSpot(1, ["t"], None).Success?
    ensures AuctionOutcome(NewAdSpot(1, ["t"], None).value, [a, b], "first_price", Some(SimpleValuation), None, draw)
            == Success(Outcome([Some(a)], [3.0]))
  {
    var spot := NewAdSpot(1, ["t"], None).value;
    var es := [Entry(a, 3.0, 3.0, 1.0), Entry(b, 2.0, 2.0, 1.0)];
    TruthfulOneTagEntry(spot, [a, b], 0);
    TruthfulOneTagEntry(spot, [a, b], 1);
    DecreasingAuction(spot, [a, b], FirstPrice, es, draw);
    assert Allocate(FirstPrice, es, 1).winners == [Some(a)];
    assert Allocate(FirstPrice, es, 1).prices == [3.0];
  }

  /** Second price, two slots, values 5.0, 3.0 and 1.0: A and B win and pay 3.0 and 1.0. */
  lemma SecondPriceTwoSlots(a: Bidder, b: Bidder, c: Bidder, draw: nat -> real)
    requires a.targeting == map["sports" := 5.0] && b.targeting == map["sports" := 3.0]
    requires c.targeting == map["sports" := 1.0]
    requires a.bidFunc.None? && b.bidFunc.None? && c.bidFunc.None?
    ensures NewAdSpot(2, ["sports"], None).Success?
    ensures AuctionOutcome(NewAdSpot(2, ["sports"], None).value, [a, b, c], "second_price",
                           Some(SimpleValuation), None, draw)
            == Success(Outcome([Some(a), Some(b)], [3.0, 1.0]))
  {
    var spot := NewAdSpot(2, ["sports"], None).value;
    var bs := [a, b, c];
    var es := [Entry(a, 5.0, 5.0, 1.0), Entry(b, 3.0, 3.0, 1.0), Entry(c, 1.0, 1.0, 1.0)];
    TruthfulOneTagEntry(spot, bs, 0);
    TruthfulOneTagEntry(spot, bs, 1);
    TruthfulOneTagEntry(spot, bs, 2);
    DecreasingAuction(spot, bs, SecondPrice, es, draw);
    assert Allocate(SecondPrice, es, 2).winners == [Some(a), Some(b)];
    assert Allocate(SecondPrice, es, 2).prices == [3.0, 1.0];
  }

  /** GSP, three slots at positions 1.0, 0.6 and 0.3, values 10, 6, 4 and 1:
      A, B and C win and pay 6.0, 4.0 and 1.0. */
  lemma GspThreeSlots(a: Bidder, b: Bidder, c: Bidder, d: Bidder, draw: nat -> real)
    requires a.targeting == map["music" := 10.0] && b.targeting == map["music" := 6.0]
    requires c.targeting == map["music" := 4.0] && d.targeting == map["music" := 1.0]
    requires a.bidFunc.None? && b.bidFunc.None? && c.bidFunc.None? && d.bidFunc.None?
    ensures NewAdSpot(3, ["music"], Some([1.0, 0.6, 0.3])).Success?
    ensures AuctionOutcome(NewAdSpot(3, ["music"], Some([1.0, 0.6, 0.3])).value, [a, b, c, d], "gsp",
                           Some(SimpleValuation), None, draw)
            == Success(Outcome([Some(a), Some(b), Some(c)], [6.0, 4.0, 1.0]))
  {
    var spot := AdSpot(3, ["music"], [1.0, 0.6, 0.3]);
    assert NewAdSpot(3, ["music"], Some([1.0, 0.6, 0.3])) == Success(spot);
    var bs := [a, b, c, d];
    var es := [Entry(a, 10.0, 10.0, 1.0), Entry(b, 6.0, 6.0, 1.0), Entry(c, 4.0, 4.0, 1.0), Entry(d, 1.0, 1.0, 1.0)];
    TruthfulOneTagEntry(spot, bs, 0);
    TruthfulOneTagEntry(spot, bs, 1);
    TruthfulOneTagEntry(spot, bs, 2);
    TruthfulOneTagEntry(spot, bs, 3);
    DecreasingAuction(spot, bs, Gsp, es, draw);
    assert Allocate(Gsp, es, 3).winners == [Some(a), Some(b), Some(c)];
    assert Allocate(Gsp, es, 3).prices == [6.0, 4.0, 1.0];
  }

  /** Second price, one bidder valued 2.0, three slots: slot 0 goes to A at
      price 0.0 and the other two slots stay empty. */
  lemma FewerBiddersThanSlots(a: Bidder, draw: nat -> real)
    requires a.targeting == map["a" := 2.0] && a.bidFunc.None?
    ensures NewAdSpot(3, ["a"], None).Success?
    ensures AuctionOutcome(NewAdSpot(3, ["a"], None).value, [a], "second_price", Some(SimpleValuation), None, draw)
            == Success(Outcome([Some(a), None, None], [0.0, 0.0, 0.0]))
  {
    var spot := NewAdSpot(3, ["a"], None).value;
    var es := [Entry(a, 2.0, 2.0, 1.0)];
    TruthfulOneTagEntry(spot, [a], 0);
    DecreasingAuction(spot, [a], SecondPrice, es, draw);
    assert Allocate(SecondPrice, es, 3).winners == [Some(a), None, None];
    assert Allocate(SecondPrice, es, 3).prices == [0.0, 0.0, 0.0];
  }

  /** A bidder whose targeting misses the spot's tag values it at 0.0, so
      both slots stay empty at price 0.0. */
  lemma UnrelatedTagLeavesSlotsEmpty(x: Bidder, draw: nat -> real)
    requires x.targeting == map["b" := 1.0]
    ensures NewAdSpot(2, ["a"], None).Success?
    ensures AuctionOutcome(NewAdSpot(2, ["a"], None).value, [x], "first_price", Some(SimpleValuation), None, draw)
            == Success(Outcome([None, None], [0.0, 0.0]))
  {
    var spot := NewAdSpot(2, ["a"], None).value;
    OneTagValuation(x, spot, 1.0);
    EligibleEmptyIff(spot, [x], DefaultQualities(1), SimpleValuation);
    assert Eligible(spot, [x], DefaultQualities(1), SimpleValuation) == [];
    ParseMethodName(FirstPrice);
    assert EmptyOutcome(2) == Outcome([None, None], [0.0, 0.0]);
  }

  /** Two quality scores for one bidder are rejected with a ValueError. */
  lemma QsLengthMismatch(x: Bidder, vf: ValuationFn, draw: nat -> real)
    ensures NewAdSpot(1, ["a"], None).Success?
    ensures AuctionOutcome(NewAdSpot(1, ["a"], None).value, [x], "second_price", Some(vf), Some([0.5, 0.6]), draw)
            == Failure(ValueError(QsLengthMessage))
  {
  }

  /** The slot-set checks of the constructor tests: a short position vector
      and a slot count of 0 are rejected; without positions every slot gets 1.0. */
  lemma AdSpotRejections()
    ensures NewAdSpot(2, ["a"], Some([0.5])) == Failure(ValueError(PosLengthMessage))
    ensures NewAdSpot(0, ["a"], None) == Failure(AssertionError)
    ensures NewAdSpot(2, ["a", "b"], None) == Success(AdSpot(2, ["a", "b"], [1.0, 1.0]))
  {
    assert NewAdSpot(2, ["a", "b"], None).value.pos == [1.0, 1.0];
  }

  /** A position weight above 1 is rejected. */
  lemma PosOutOfRangeRejected()
    ensures NewAdSpot(2, ["a"], Some([1.2, 0.5])) == Failure(ValueError(PosRangeMessage))
  {
    assert [1.2, 0.5][0] > 1.0;
  }

  /** GSP, three slots, values 3.0 and 1.0: A and B take the first two slots,
      A pays B's bid, B pays 0.0, and the third slot stays empty. */
  lemma GspFewerBiddersThanSlots(a: Bidder, b: Bidder, draw: nat -> real)
    requires a.targeting == map["x" := 3.0] && b.targeting == map["x" := 1.0]
    requires a.bidFunc.None? && b.bidFunc.None?
    ensures NewAdSpot(3, ["x"], Some([1.0, 0.5, 0.2])).Success?
    ensures AuctionOutcome(NewAdSpot(3, ["x"], Some([1.0, 0.5, 0.2])).value, [a, b], "gsp",
                           Some(SimpleValuation), None, draw)
            == Success(Outcome([Some(a), Some(b), None], [1.0, 0.0, 0.0]))
  {
    var spot := AdSpot(3, ["x"], [1.0, 0.5, 0.2]);
    assert NewAdSpot(3, ["x"], Some([1.0, 0.5, 0.2])) == Success(spot);
    var es := [Entry(a, 3.0, 3.0, 1.0), Entry(b, 1.0, 1.0, 1.0)];
    TruthfulOneTagEntry(spot, [a, b], 0);
    TruthfulOneTagEntry(spot, [a, b], 1);
    DecreasingAuction(spot, [a, b], Gsp, es, draw);
    assert Allocate(Gsp, es, 3).winners == [Some(a), Some(b), None];
    assert Allocate(Gsp, es, 3).prices == [1.0, 0.0, 0.0];
  }

  /** Without a valuation function the auction raises ValueError. */
  lemma MissingValuationRaises(draw: nat -> real)
    ensures NewAdSpot(1, ["a"], None).Success?
    ensures AuctionOutcome(NewAdSpot(1, ["a"], None).value, [], "second_price", None, None, draw)
            == Failure(ValueError(MissingValuationMessage))
  {
  }

  lemma UnknownMethodName()
    ensures ParseMethod("not_a_method") == Failure(ValueError("unknown method: not_a_method"))
  {
    LowerOfLowerCase("not_a_method");
  }

  /** An unknown method name raises ValueError naming the method. */
  lemma UnknownMethodRaises(x: Bidder, draw: nat -> real)
    requires x.targeting == map["a" := 1.0]
    ensures NewAdSpot(1, ["a"], None).Success?
    ensures AuctionOutcome(NewAdSpot(1, ["a"], None).value, [x], "not_a_method", Some(SimpleValuation), None, draw)
            == Failure(ValueError("unknown method: not_a_method"))
  {
    UnknownMethodName();
  }

  /** A permutation of two entries is one of their two orders. */
  lemma PairPermutation(r: seq<Entry>, x: Entry, y: Entry)
    requires multiset(r) == multiset{x, y}
    ensures r == [x, y] || r == [y, x]
  {
    assert |r| == 2;
    assert r == [r[0], r[1]];
    assert r[0] in multiset(r) && r[1] in multiset(r);
    if r[0] == x {
      assert multiset{r[1]} == multiset(r) - multiset{x};
    } else {
      assert r[0] == y;
      assert multiset{r[1]} == multiset(r) - multiset{y};
    }
  }

  /** The tied auction below allocates the ranking of the two equal entries. */
  lemma TieAuctionRanks(a: Bidder, b: Bidder, draw: nat -> real)
    requires a.targeting == map["a" := 1.0] && b.targeting == map["a" := 1.0]
    requires a.bidFunc.None? && b.bidFunc.None?
    ensures NewAdSpot(2, ["a"], None).Success?
    ensures AuctionOutcome(NewAdSpot(2, ["a"], None).value, [a, b], "first_price", Some(SimpleValuation), None, draw)
            == Success(Allocate(FirstPrice, Rank([Entry(a, 1.0, 1.0, 1.0), Entry(b, 1.0, 1.0, 1.0)], draw), 2))
  {
    var spot := NewAdSpot(2, ["a"], None).value;
    var bs := [a, b];
    var q := DefaultQualities(2);
    TruthfulOneTagEntry(spot, bs, 0);
    TruthfulOneTagEntry(spot, bs, 1);
    AllPositiveAllEligible(spot, bs, q, SimpleValuation, 2);
    assert Eligible(spot, bs, q, SimpleValuation) == [Entry(a, 1.0, 1.0, 1.0), Entry(b, 1.0, 1.0, 1.0)];
    ParseMethodName(FirstPrice);
  }

  /** Two bidders with equal values for two slots: whatever the draws, both
      win, in one order or the other, and each pays its bid of 1.0. */
  lemma TieEitherOrder(a: Bidder, b: Bidder, draw: nat -> real)
    requires a.targeting == map["a" := 1.0] && b.targeting == map["a" := 1.0]
    requires a.bidFunc.None? && b.bidFunc.None?
    ensures NewAdSpot(2, ["a"], None).Success?
    ensures var r := AuctionOutcome(NewAdSpot(2, ["a"], None).value, [a, b], "first_price",
                                    Some(SimpleValuation), None, draw);
            && r.Success?
            && (r.value.winners == [Some(a), Some(b)] || r.value.winners == [Some(b), Some(a)])
            && r.value.prices == [1.0, 1.0]
  {
    var ea := Entry(a, 1.0, 1.0, 1.0);
    var eb := Entry(b, 1.0, 1.0, 1.0);
    TieAuctionRanks(a, b, draw);
    var ranked := Rank([ea, eb], draw);
    RankIsRanking([ea, eb], draw);
    assert multiset([ea, eb]) == multiset{ea, eb};
    PairPermutation(ranked, ea, eb);
    var o := Allocate(FirstPrice, ranked, 2);
    assert o.winners == [Some(ranked[0].bidder), Some(ranked[1].bidder)];
    assert o.prices == [1.0, 1.0];
  }

  /** The platform runs one auction per spot: two spots give two results,
      each with one winner and one price per slot. */
  lemma PlatformTwoSpots(b1: Bidder, b2: Bidder, draws: nat -> nat -> real)
    requires b1.targeting == map["a" := 2.0, "b" := 1.0] && b2.targeting == map["b" := 2.0]
    ensures NewAdSpot(1, ["a"], None).Success? && NewAdSpot(2, ["b"], Some([1.0, 0.5])).Success?
    ensures var r := Platforms.Batch([NewAdSpot(1, ["a"], None).value, NewAdSpot(2, ["b"], Some([1.0, 0.5])).value],
                                     [b1, b2], "first_price", Some(SimpleValuation), draws);
            && r.Success? && |r.value| == 2
            && |r.value[0].winners| == 1 && |r.value[0].prices| == 1
            && |r.value[1].winners| == 2 && |r.value[1].prices| == 2
  {
    var spots := [NewAdSpot(1, ["a"], None).value, NewAdSpot(2, ["b"], Some([1.0, 0.5])).value];
    var rs := Platforms.SpotResults(spots, [b1, b2], "first_price", SimpleValuation, draws);
    ParseMethodName(FirstPrice);
    assert rs[0].Success? && rs[1].Success?;
    Platforms.BatchPrefixSuccess(rs, 2);
  }

  /** The platform raises ValueError when no valuation function is given. */
  lemma PlatformNeedsValuation(x: Bidder, draws: nat -> nat -> real)
    ensures NewAdSpot(1, ["a"], None).Success?
    ensures Platforms.Batch([NewAdSpot(1, ["a"], None).value], [x], "second_price", None, draws)
            == Failure(ValueError(MissingValuationMessage))
  {
  }
}
