/** What the auction engine promises: eligibility, ranking, slot filling
    and the three pricing rules, stated for every ranking the random
    tie-break could produce. */
module AuctionProperties {
  import opened Common
  import opened AdAuction

  // ---------------------------------------------------------------------------
  // Eligibility

  lemma {:induction false} EligiblePrefixMembership(spot: AdSpot, bidders: seq<Bidder>, q: seq<real>,
                                                    vf: ValuationFn, n: nat, e: Entry)
    requires n <= |bidders| == |q|
    ensures e in EligiblePrefix(spot, bidders, q, vf, n) <==>
            exists k :: 0 <= k < n && EntryFor(spot, bidders, q, vf, k) == e && e.val > 0.0
  {
    if n > 0 {
      EligiblePrefixMembership(spot, bidders, q, vf, n - 1, e);
    }
  }

  /** An entry is eligible exactly when it is what some bidder's valuation,
      bid and quality make it and that valuation is strictly positive. */
  lemma EligibleMembership(spot: AdSpot, bidders: seq<Bidder>, q: seq<real>, vf: ValuationFn, e: Entry)
    requires |bidders| == |q|
    ensures e in Eligible(spot, bidders, q, vf) <==>
            exists k :: 0 <= k < |bidders| && EntryFor(spot, bidders, q, vf, k) == e && e.val > 0.0
  {
    EligiblePrefixMembership(spot, bidders, q, vf, |bidders|, e);
  }

  /** Nobody is eligible exactly when no bidder values the spot above zero. */
  lemma EligibleEmptyIff(spot: AdSpot, bidders: seq<Bidder>, q: seq<real>, vf: ValuationFn)
    requires |bidders| == |q|
    ensures Eligible(spot, bidders, q, vf) == [] <==>
            forall k :: 0 <= k < |bidders| ==> EntryFor(spot, bidders, q, vf, k).val <= 0.0
  {
    var eligible := Eligible(spot, bidders, q, vf);
    if eligible != [] {
      EligibleMembership(spot, bidders, q, vf, eligible[0]);
    } else {
      forall k | 0 <= k < |bidders|
        ensures EntryFor(spot, bidders, q, vf, k).val <= 0.0
      {
        EligibleMembership(spot, bidders, q, vf, EntryFor(spot, bidders, q, vf, k));
      }
    }
  }

  /** When every bidder values the spot above zero, all of them are
      eligible, in bidder order. */
  lemma {:induction false} AllPositiveAllEligible(spot: AdSpot, bidders: seq<Bidder>, q: seq<real>,
                                                  vf: ValuationFn, n: nat)
    requires n <= |bidders| == |q|
    requires forall k :: 0 <= k < n ==> EntryFor(spot, bidders, q, vf, k).val > 0.0
    ensures EligiblePrefix(spot, bidders, q, vf, n) == seq(n, k requires 0 <= k < n => EntryFor(spot, bidders, q, vf, k))
  {
    if n > 0 {
      AllPositiveAllEligible(spot, bidders, q, vf, n - 1);
    }
  }

  ghost predicate Increasing(idx: seq<nat>)
  {
    forall i, j :: 0 <= i < j < |idx| ==> idx[i] < idx[j]
  }

  /** The indices of the eligible bidders among the first n, in increasing order. */
  function EligibleIndices(spot: AdSpot, bidders: seq<Bidder>, q: seq<real>, vf: ValuationFn, n: nat): (idx: seq<nat>)
    requires n <= |bidders| == |q|
    ensures forall i :: 0 <= i < |idx| ==> idx[i] < n
  {
    if n == 0 then []
    else
      EligibleIndices(spot, bidders, q, vf, n - 1)
        + (if EntryFor(spot, bidders, q, vf, n - 1).val > 0.0 then [n - 1] else [])
  }

  lemma {:induction false} EligiblePrefixIndexed(spot: AdSpot, bidders: seq<Bidder>, q: seq<real>,
                                                 vf: ValuationFn, n: nat)
    requires n <= |bidders| == |q|
    ensures var idx := EligibleIndices(spot, bidders, q, vf, n);
            var el := EligiblePrefix(spot, bidders, q, vf, n);
            && |idx| == |el|
            && (forall i :: 0 <= i < |idx| ==> el[i] == EntryFor(spot, bidders, q, vf, idx[i]))
  {
    if n > 0 {
      EligiblePrefixIndexed(spot, bidders, q, vf, n - 1);
      var idx' := EligibleIndices(spot, bidders, q, vf, n - 1);
      var el' := EligiblePrefix(spot, bidders, q, vf, n - 1);
      var idx := EligibleIndices(spot, bidders, q, vf, n);
      var el := EligiblePrefix(spot, bidders, q, vf, n);
      var e := EntryFor(spot, bidders, q, vf, n - 1);
      if e.val > 0.0 {
        assert idx == idx' + [n - 1] && el == el' + [e];
        forall i | 0 <= i < |idx| ensures el[i] == EntryFor(spot, bidders, q, vf, idx[i]) {
          if i < |idx'| {
            assert el[i] == el'[i] && idx[i] == idx'[i];
          }
        }
      } else {
        assert idx == idx' && el == el';
      }
    }
  }

  lemma {:induction false} EligibleIndicesIncrease(spot: AdSpot, bidders: seq<Bidder>, q: seq<real>,
                                                   vf: ValuationFn, n: nat)
    requires n <= |bidders| == |q|
    ensures Increasing(EligibleIndices(spot, bidders, q, vf, n))
  {
    if n > 0 {
      EligibleIndicesIncrease(spot, bidders, q, vf, n - 1);
      var idx' := EligibleIndices(spot, bidders, q, vf, n - 1);
      var idx := EligibleIndices(spot, bidders, q, vf, n);
      if EntryFor(spot, bidders, q, vf, n - 1).val > 0.0 {
        assert idx == idx' + [n - 1];
        forall i, j | 0 <= i < j < |idx| ensures idx[i] < idx[j] {
          if j < |idx'| {
            assert idx[i] == idx'[i] && idx[j] == idx'[j];
          } else {
            assert idx[i] == idx'[i] < n - 1;
          }
        }
      } else {
        assert idx == idx';
      }
    }
  }

  lemma {:induction false} EligibleIndicesComplete(spot: AdSpot, bidders: seq<Bidder>, q: seq<real>,
                                                   vf: ValuationFn, n: nat)
    requires n <= |bidders| == |q|
    ensures forall k :: 0 <= k < n && EntryFor(spot, bidders, q, vf, k).val > 0.0 ==>
                          k in EligibleIndices(spot, bidders, q, vf, n)
  {
    if n > 0 {
      EligibleIndicesComplete(spot, bidders, q, vf, n - 1);
      var idx' := EligibleIndices(spot, bidders, q, vf, n - 1);
      var idx := EligibleIndices(spot, bidders, q, vf, n);
      assert forall k :: k in idx' ==> k in idx;
      if EntryFor(spot, bidders, q, vf, n - 1).val > 0.0 {
        assert idx[|idx| - 1] == n - 1;
      }
    }
  }

  /** The eligible list is the bidders with a positive valuation, each once,
      in bidder order: entry i is the bidder at index idx[i], the indices
      strictly increase, and they are exactly the bidders valued above zero. */
  lemma EligibleInBidderOrder(spot: AdSpot, bidders: seq<Bidder>, q: seq<real>, vf: ValuationFn)
    requires |bidders| == |q|
    ensures var idx := EligibleIndices(spot, bidders, q, vf, |bidders|);
            var el := Eligible(spot, bidders, q, vf);
            && |idx| == |el|
            && (forall i :: 0 <= i < |idx| ==> el[i] == EntryFor(spot, bidders, q, vf, idx[i]))
            && (forall i, j :: 0 <= i < j < |idx| ==> idx[i] < idx[j])
            && (forall k :: 0 <= k < |bidders| ==> (k in idx <==> EntryFor(spot, bidders, q, vf, k).val > 0.0))
  {
    var idx := EligibleIndices(spot, bidders, q, vf, |bidders|);
    var el := Eligible(spot, bidders, q, vf);
    EligiblePrefixIndexed(spot, bidders, q, vf, |bidders|);
    EligibleIndicesIncrease(spot, bidders, q, vf, |bidders|);
    EligibleIndicesComplete(spot, bidders, q, vf, |bidders|);
    forall k | 0 <= k < |bidders| && k in idx
      ensures EntryFor(spot, bidders, q, vf, k).val > 0.0
    {
      var i :| 0 <= i < |idx| && idx[i] == k;
      assert el[i] in el;
    }
  }

  // ---------------------------------------------------------------------------
  // Ranking: the sort yields a permutation that does not increase in score.

  lemma EntriesCons(k: Keyed, s: seq<Keyed>)
    ensures Entries([k] + s) == [k.entry] + Entries(s)
  {
    assert Entries([k] + s)[0] == k.entry;
  }

  lemma {:induction false} InsertKeepsKeys(k: Keyed, s: seq<Keyed>)
    ensures multiset(Insert(k, s)) == multiset(s) + multiset{k}
  {
    if s != [] && !Ahead(k, s[0]) {
      InsertKeepsKeys(k, s[1..]);
      assert s == [s[0]] + s[1..];
    }
  }

  lemma {:induction false} InsertKeepsEntries(k: Keyed, s: seq<Keyed>)
    ensures multiset(Entries(Insert(k, s))) == multiset(Entries(s)) + multiset{k.entry}
  {
    if s == [] || Ahead(k, s[0]) {
      EntriesCons(k, s);
    } else {
      InsertKeepsEntries(k, s[1..]);
      assert s == [s[0]] + s[1..];
      EntriesCons(s[0], Insert(k, s[1..]));
      EntriesCons(s[0], s[1..]);
    }
  }

  lemma SortedTail(s: seq<Keyed>)
    requires s != [] && SortedKeyed(s)
    ensures SortedKeyed(s[1..])
    ensures forall y :: y in s[1..] ==> Ahead(s[0], y)
  {
    forall i, j | 0 <= i < j < |s[1..]| ensures Ahead(s[1..][i], s[1..][j]) {
      assert Ahead(s[i + 1], s[j + 1]);
    }
  }

  /** A sorted sequence whose head is ahead of everything in its tail. */
  lemma SortedCons(x: Keyed, t: seq<Keyed>)
    requires SortedKeyed(t)
    requires forall y :: y in t ==> Ahead(x, y)
    ensures SortedKeyed([x] + t)
  {
    var r := [x] + t;
    forall i, j | 0 <= i < j < |r| ensures Ahead(r[i], r[j]) {
      if i == 0 {
        assert r[j] == t[j - 1];
      } else {
        assert r[i] == t[i - 1] && r[j] == t[j - 1];
      }
    }
  }

  lemma {:induction false} InsertSorted(k: Keyed, s: seq<Keyed>)
    requires SortedKeyed(s)
    ensures SortedKeyed(Insert(k, s))
  {
    if s == [] {
    } else if Ahead(k, s[0]) {
      SortedTail(s);
      SortedCons(k, s);
    } else {
      var t := Insert(k, s[1..]);
      SortedTail(s);
      InsertSorted(k, s[1..]);
      InsertKeepsKeys(k, s[1..]);
      forall y | y in t ensures Ahead(s[0], y) {
        assert y in multiset(t);
      }
      SortedCons(s[0], t);
    }
  }

  lemma {:induction false} SortKeyedPermutes(s: seq<Keyed>)
    ensures multiset(Entries(SortKeyed(s))) == multiset(Entries(s))
  {
    if s != [] {
      var tail := SortKeyed(s[1..]);
      SortKeyedPermutes(s[1..]);
      InsertKeepsEntries(s[0], tail);
      assert s == [s[0]] + s[1..];
      EntriesCons(s[0], s[1..]);
      assert multiset(Entries(s)) == multiset{s[0].entry} + multiset(Entries(s[1..]));
    }
  }

  lemma {:induction false} SortKeyedSorted(s: seq<Keyed>)
    ensures SortedKeyed(SortKeyed(s))
  {
    if s != [] {
      SortKeyedSorted(s[1..]);
      InsertSorted(s[0], SortKeyed(s[1..]));
    }
  }

  /** Whatever the draws, the ranking of `assign` is a ranking in the sense
      used by every lemma below. */
  lemma RankIsRanking(eligible: seq<Entry>, draw: nat -> real)
    ensures IsRanking(Rank(eligible, draw), eligible)
  {
    var tagged := Tagged(eligible, draw);
    assert Entries(tagged) == eligible;
    SortKeyedPermutes(tagged);
    SortKeyedSorted(tagged);
    var sorted := SortKeyed(tagged);
    forall i, j | 0 <= i < j < |Entries(sorted)|
      ensures Entries(sorted)[i].Score() >= Entries(sorted)[j].Score()
    {
      assert Ahead(sorted[i], sorted[j]);
    }
  }

  lemma {:induction false} SortKeyedKeepsKeys(s: seq<Keyed>)
    ensures multiset(SortKeyed(s)) == multiset(s)
  {
    if s != [] {
      var tail := SortKeyed(s[1..]);
      SortKeyedKeepsKeys(s[1..]);
      InsertKeepsKeys(s[0], tail);
      assert s == [s[0]] + s[1..];
      assert multiset(s) == multiset{s[0]} + multiset(s[1..]);
    }
  }

  /** Among entries with the same score the larger draw ranks first: the
      entries ranked i and j come from input positions k1 and k2, and
      draw(k1) >= draw(k2). */
  lemma RankBreaksTiesByDraw(eligible: seq<Entry>, draw: nat -> real, i: nat, j: nat)
    requires i < j < |eligible|
    ensures Rank(eligible, draw)[i].Score() == Rank(eligible, draw)[j].Score() ==>
            exists k1, k2 :: 0 <= k1 < |eligible| && 0 <= k2 < |eligible|
                             && Rank(eligible, draw)[i] == eligible[k1] && Rank(eligible, draw)[j] == eligible[k2]
                             && draw(k1) >= draw(k2)
  {
    var t := Tagged(eligible, draw);
    var sorted := SortKeyed(t);
    SortKeyedKeepsKeys(t);
    SortKeyedSorted(t);
    assert sorted[i] in multiset(t) && sorted[j] in multiset(t);
    var k1 :| 0 <= k1 < |t| && t[k1] == sorted[i];
    var k2 :| 0 <= k2 < |t| && t[k2] == sorted[j];
    assert Ahead(sorted[i], sorted[j]);
    assert Rank(eligible, draw)[i] == eligible[k1] && Rank(eligible, draw)[j] == eligible[k2];
  }

  lemma {:induction false} SortKeyedFixesSorted(s: seq<Keyed>)
    requires SortedKeyed(s)
    ensures SortKeyed(s) == s
  {
    if s != [] {
      SortedTail(s);
      SortKeyedFixesSorted(s[1..]);
      assert [s[0]] + s[1..] == s;
    }
  }

  /** Eligible entries already in strictly decreasing bid * quality are
      ranked in their own order, whatever the draws. */
  lemma RankKeepsDecreasing(eligible: seq<Entry>, draw: nat -> real)
    requires forall i, j :: 0 <= i < j < |eligible| ==> eligible[i].Score() > eligible[j].Score()
    ensures Rank(eligible, draw) == eligible
  {
    var t := Tagged(eligible, draw);
    assert SortedKeyed(t);
    SortKeyedFixesSorted(t);
    assert Entries(t) == eligible;
  }

  lemma RankingLength(ranked: seq<Entry>, eligible: seq<Entry>)
    requires IsRanking(ranked, eligible)
    ensures |ranked| == |eligible|
  {
    assert |multiset(ranked)| == |multiset(eligible)|;
  }

  // ---------------------------------------------------------------------------
  // Slot filling, for any ranking.

  /** Exactly the slots 0 .. min(numSlots, #eligible) - 1 are filled, slot i by
      the entry ranked i; every later slot is None at price 0.0. */
  lemma FillsRankPrefix(kind: Method, ranked: seq<Entry>, eligible: seq<Entry>, numSlots: nat)
    requires IsRanking(ranked, eligible)
    ensures |ranked| == |eligible|
    ensures var o := Allocate(kind, ranked, numSlots);
            && |o.winners| == numSlots && |o.prices| == numSlots
            && (forall i :: 0 <= i < numSlots ==> (o.winners[i].Some? <==> i < Min(numSlots, |eligible|)))
            && (forall i :: 0 <= i < Min(numSlots, |eligible|) ==> o.winners[i] == Some(ranked[i].bidder))
            && (forall i :: Min(numSlots, |eligible|) <= i < numSlots ==> o.winners[i] == None && o.prices[i] == 0.0)
  {
    RankingLength(ranked, eligible);
  }

  /** Only bidders whose valuation is strictly positive can win a slot. */
  lemma OnlyEligibleWin(kind: Method, spot: AdSpot, bidders: seq<Bidder>, q: seq<real>, vf: ValuationFn,
                        ranked: seq<Entry>, i: nat)
    requires |bidders| == |q|
    requires IsRanking(ranked, Eligible(spot, bidders, q, vf))
    requires i < spot.numSlots
    requires Allocate(kind, ranked, spot.numSlots).winners[i].Some?
    ensures exists k :: 0 <= k < |bidders|
                        && bidders[k] == Allocate(kind, ranked, spot.numSlots).winners[i].value
                        && EntryFor(spot, bidders, q, vf, k).val > 0.0
  {
    var e := ranked[i];
    assert e in multiset(ranked);
    EligibleMembership(spot, bidders, q, vf, e);
  }

  /** Winners appear in non-increasing bid * quality, and no eligible entry
      left without a slot scores above any winner. */
  lemma WinnersOutrankTheRest(ranked: seq<Entry>, eligible: seq<Entry>, numSlots: nat)
    requires IsRanking(ranked, eligible)
    ensures var f := Min(numSlots, |ranked|);
            && (forall i, j :: 0 <= i < j < f ==> ranked[i].Score() >= ranked[j].Score())
            && (forall e, i :: e in eligible && e !in ranked[..f] && 0 <= i < f ==> ranked[i].Score() >= e.Score())
  {
    var f := Min(numSlots, |ranked|);
    forall e, i | e in eligible && e !in ranked[..f] && 0 <= i < f
      ensures ranked[i].Score() >= e.Score()
    {
      assert e in multiset(eligible);
      assert e in ranked;
      var j :| 0 <= j < |ranked| && ranked[j] == e;
    }
  }

  // ---------------------------------------------------------------------------
  // Pricing, for any ranking.

  /** First price: the winner of slot i pays its own bid. */
  lemma FirstPricePaysOwnBid(ranked: seq<Entry>, numSlots: nat)
    ensures var o := Allocate(FirstPrice, ranked, numSlots);
            forall i :: 0 <= i < Min(numSlots, |ranked|) ==>
              o.winners[i] == Some(ranked[i].bidder) && o.prices[i] == ranked[i].bid
  {
  }

  /** First price with truthful bidders: the winner of slot i pays its own
      valuation, which is strictly positive. */
  lemma TruthfulFirstPricePaysValuation(spot: AdSpot, bidders: seq<Bidder>, q: seq<real>, vf: ValuationFn,
                                        ranked: seq<Entry>)
    requires |bidders| == |q|
    requires forall k :: 0 <= k < |bidders| ==> bidders[k].bidFunc.None?
    requires IsRanking(ranked, Eligible(spot, bidders, q, vf))
    ensures var o := Allocate(FirstPrice, ranked, spot.numSlots);
            forall i :: 0 <= i < Min(spot.numSlots, |ranked|) ==>
              o.winners[i] == Some(ranked[i].bidder) && o.prices[i] == ranked[i].val > 0.0
  {
    var o := Allocate(FirstPrice, ranked, spot.numSlots);
    forall i | 0 <= i < Min(spot.numSlots, |ranked|)
      ensures o.winners[i] == Some(ranked[i].bidder) && o.prices[i] == ranked[i].val > 0.0
    {
      assert o.prices[i] == ranked[i].bid;
      assert ranked[i] in multiset(ranked);
      EligibleMembership(spot, bidders, q, vf, ranked[i]);
    }
  }

  /** Second price and GSP: the winner of slot i pays the raw bid of the entry
      ranked i + 1, or 0.0 when there is none. */
  lemma NextBidPricing(kind: Method, ranked: seq<Entry>, numSlots: nat)
    requires kind != FirstPrice
    ensures var o := Allocate(kind, ranked, numSlots);
            forall i :: 0 <= i < Min(numSlots, |ranked|) ==>
              o.winners[i] == Some(ranked[i].bidder)
              && o.prices[i] == (if i + 1 < |ranked| then ranked[i + 1].bid else 0.0)
  {
    var o := Allocate(kind, ranked, numSlots);
    forall i | 0 <= i < Min(numSlots, |ranked|)
      ensures o.prices[i] == (if i + 1 < |ranked| then ranked[i + 1].bid else 0.0)
    {
      assert o.prices[i] == SlotPrice(kind, ranked, i);
    }
  }

  /** For the same ranking, second price and GSP clear identically. */
  lemma GspMatchesSecondPrice(ranked: seq<Entry>, numSlots: nat)
    ensures Allocate(Gsp, ranked, numSlots) == Allocate(SecondPrice, ranked, numSlots)
  {
  }

  /** A filled slot can still have price 0.0: under second price and GSP,
      when every ranked entry gets a slot, the last of them pays nothing
      because nobody ranks below it. */
  lemma LastWinnerPaysNothing(kind: Method, ranked: seq<Entry>, numSlots: nat)
    requires kind != FirstPrice && 0 < |ranked| <= numSlots
    ensures var o := Allocate(kind, ranked, numSlots);
            var last := |ranked| - 1;
            o.winners[last] == Some(ranked[last].bidder) && o.prices[last] == 0.0
  {
  }

  // ---------------------------------------------------------------------------
  // The whole auction.

  /** Every successful auction fills its slots from some ranking of the
      eligible bidders; so every lemma above applies to `assign`. */
  lemma OutcomeIsAllocation(spot: AdSpot, bidders: seq<Bidder>, methodName: string,
                            valuationFn: Option<ValuationFn>, qs: Option<seq<real>>,
                            draw: nat -> real, o: Outcome)
    requires AuctionOutcome(spot, bidders, methodName, valuationFn, qs, draw) == Success(o)
    ensures valuationFn.Some? && ParseMethod(methodName).Success?
    ensures qs.Some? ==> |qs.value| == |bidders|
    ensures var q := if qs.None? then DefaultQualities(|bidders|) else qs.value;
            exists ranked :: IsRanking(ranked, Eligible(spot, bidders, q, valuationFn.value))
                             && o == Allocate(ParseMethod(methodName).value, ranked, spot.numSlots)
  {
    var q := if qs.None? then DefaultQualities(|bidders|) else qs.value;
    var eligible := Eligible(spot, bidders, q, valuationFn.value);
    var kind := ParseMethod(methodName).value;
    if eligible == [] {
      assert IsRanking([], eligible);
      assert o == Allocate(kind, [], spot.numSlots);
    } else {
      RankIsRanking(eligible, draw);
    }
  }

  /** When no bidder values the spot above zero, every slot is None at price 0.0. */
  lemma NoEligibleMeansEmpty(spot: AdSpot, bidders: seq<Bidder>, methodName: string,
                             vf: ValuationFn, qs: Option<seq<real>>, draw: nat -> real)
    requires qs.Some? ==> |qs.value| == |bidders|
    requires ParseMethod(methodName).Success?
    requires var q := if qs.None? then DefaultQualities(|bidders|) else qs.value;
             forall k :: 0 <= k < |bidders| ==> EntryFor(spot, bidders, q, vf, k).val <= 0.0
    ensures var r := AuctionOutcome(spot, bidders, methodName, Some(vf), qs, draw);
            && r.Success?
            && r.value.winners == seq(spot.numSlots, _ => None)
            && r.value.prices == seq(spot.numSlots, _ => 0.0)
  {
    var q := if qs.None? then DefaultQualities(|bidders|) else qs.value;
    EligibleEmptyIff(spot, bidders, q, vf);
  }

  /** The method name is case-insensitive. */
  lemma MethodCaseInsensitive(spot: AdSpot, bidders: seq<Bidder>, methodName: string,
                              valuationFn: Option<ValuationFn>, qs: Option<seq<real>>, draw: nat -> real)
    ensures AuctionOutcome(spot, bidders, methodName, valuationFn, qs, draw)
            == AuctionOutcome(spot, bidders, Lower(methodName), valuationFn, qs, draw)
  {
    LowerIdempotent(methodName);
  }

  /** Each method name parses back to its method. */
  lemma ParseMethodName(kind: Method)
    ensures ParseMethod(MethodName(kind)) == Success(kind)
  {
    var s := MethodName(kind);
    LowerOfLowerCase(s);
  }

  /** With the same draws, "second_price" and "gsp" give identical results. */
  lemma GspAuctionMatchesSecondPrice(spot: AdSpot, bidders: seq<Bidder>,
                                     valuationFn: Option<ValuationFn>, qs: Option<seq<real>>, draw: nat -> real)
    ensures AuctionOutcome(spot, bidders, "gsp", valuationFn, qs, draw)
            == AuctionOutcome(spot, bidders, "second_price", valuationFn, qs, draw)
  {
    ParseMethodName(Gsp);
    ParseMethodName(SecondPrice);
    if valuationFn.Some? && !(qs.Some? && |qs.value| != |bidders|) {
      var q := if qs.None? then DefaultQualities(|bidders|) else qs.value;
      GspMatchesSecondPrice(Rank(Eligible(spot, bidders, q, valuationFn.value), draw), spot.numSlots);
    }
  }
}
