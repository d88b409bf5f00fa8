/** The auction-clearing engine of sim/ad_auction.py: bidders, slot sets
    (AdSpot), eligibility, ranking by bid times quality, slot filling and
    the three pricing rules. */
module AdAuction {
  import opened Common

  /** What a bidding strategy sees of the bidder that uses it. */
  datatype BidderView = BidderView(name: string, targeting: map<string, real>)

  /** `bid_func(bidder, adspot, valuation) -> bid`, supplied by the bidder's owner. */
  type BidFn = (BidderView, AdSpot, real) -> real

  /** `valuation_fn(bidder, adspot, ctrs) -> valuation`, supplied by the caller of an auction. */
  type ValuationFn = (Bidder, AdSpot, seq<real>) -> real

  /** A bidder. Its identity is its reference, as with a Python object that
      defines no equality of its own. */
  class Bidder {
    const name: string
    const targeting: map<string, real>
    /** None stands for the default truthful strategy. */
    const bidFunc: Option<BidFn>

    constructor (name: string, targeting: map<string, real>, bidFunc: Option<BidFn>)
      ensures this.name == name && this.targeting == targeting && this.bidFunc == bidFunc
    {
      this.name := name;
      this.targeting := targeting;
      this.bidFunc := bidFunc;
    }

    function View(): BidderView
    {
      BidderView(name, targeting)
    }

    /** Delegates to the caller's valuation function, with no default of its own. */
    function Valuation(spot: AdSpot, valuationFn: ValuationFn, ctrs: seq<real>): (r: real)
      ensures r == valuationFn(this, spot, ctrs)
    {
      valuationFn(this, spot, ctrs)
    }

    /** The submitted bid; without a strategy of its own a bidder bids its valuation. */
    function Bid(spot: AdSpot, valuation: real): (r: real)
      ensures bidFunc.None? ==> r == valuation
      ensures bidFunc.Some? ==> r == bidFunc.value(View(), spot, valuation)
    {
      match bidFunc
      case None => valuation
      case Some(f) => f(View(), spot, valuation)
    }
  }

  /** A slot set: the number of slots, the context tags and a click
      probability per slot position. */
  datatype AdSpot = AdSpot(numSlots: nat, tags: seq<string>, pos: seq<real>)

  ghost predicate ValidSpot(spot: AdSpot)
  {
    && spot.numSlots >= 1
    && |spot.pos| == spot.numSlots
    && forall j :: 0 <= j < |spot.pos| ==> 0.0 <= spot.pos[j] <= 1.0
  }

  const PosLengthMessage := "pos length must equal num_slots"
  const PosRangeMessage := "pos values must be between 0 and 1"

  /** `AdSpot.__init__`: an assertion on the slot count, then the position
      vector is either defaulted to all 1.0 or checked for length and range. */
  function NewAdSpot(numSlots: int, tags: seq<string>, pos: Option<seq<real>>): (r: Result<AdSpot>)
    ensures numSlots < 1 ==> r == Failure(AssertionError)
    ensures numSlots >= 1 && pos.Some? && |pos.value| != numSlots ==> r == Failure(ValueError(PosLengthMessage))
    ensures numSlots >= 1 && pos.Some? && |pos.value| == numSlots
            && (exists j :: 0 <= j < numSlots && (pos.value[j] < 0.0 || pos.value[j] > 1.0))
            ==> r == Failure(ValueError(PosRangeMessage))
    ensures r.Success? ==> ValidSpot(r.value) && r.value.numSlots == numSlots && r.value.tags == tags
    ensures r.Success? && pos.None? ==> forall j :: 0 <= j < numSlots ==> r.value.pos[j] == 1.0
    ensures r.Success? && pos.Some? ==> r.value.pos == pos.value
    ensures r.Success? <==>
              && numSlots >= 1
              && (pos.Some? ==> |pos.value| == numSlots && forall j :: 0 <= j < numSlots ==> 0.0 <= pos.value[j] <= 1.0)
  {
    if numSlots < 1 then Failure(AssertionError)
    else if pos.None? then Success(AdSpot(numSlots, tags, seq(numSlots, _ => 1.0)))
    else if |pos.value| != numSlots then Failure(ValueError(PosLengthMessage))
    else if exists j :: 0 <= j < numSlots && (pos.value[j] < 0.0 || pos.value[j] > 1.0) then
      Failure(ValueError(PosRangeMessage))
    else Success(AdSpot(numSlots, tags, pos.value))
  }

  /** The three pricing rules. */
  datatype Method = FirstPrice | SecondPrice | Gsp

  function MethodName(kind: Method): string
  {
    match kind
    case FirstPrice => "first_price"
    case SecondPrice => "second_price"
    case Gsp => "gsp"
  }

  /** The method argument of `assign`, lower-cased and checked against the three names. */
  function ParseMethod(s: string): (r: Result<Method>)
    ensures r.Success? <==> Lower(s) in {"first_price", "second_price", "gsp"}
    ensures r.Success? ==> MethodName(r.value) == Lower(s)
    ensures r.Failure? ==> r.error == ValueError("unknown method: " + Lower(s))
  {
    var m := Lower(s);
    if m == "first_price" then Success(FirstPrice)
    else if m == "second_price" then Success(SecondPrice)
    else if m == "gsp" then Success(Gsp)
    else Failure(ValueError("unknown method: " + m))
  }

  const MissingValuationMessage := "valuation_fn must be provided"
  const QsLengthMessage := "Length of Qs must match number of bidders"

  /** The result of one auction: a winner or None per slot, and a price per slot. */
  datatype Outcome = Outcome(winners: seq<Option<Bidder>>, prices: seq<real>)

  function EmptyOutcome(numSlots: nat): (o: Outcome)
  {
    Outcome(seq(numSlots, _ => None), seq(numSlots, _ => 0.0))
  }

  /** An eligible participant: the bidder, its valuation, its bid and its quality score. */
  datatype Entry = Entry(bidder: Bidder, val: real, bid: real, quality: real)
  {
    /** The expected-value ranking key. */
    function Score(): real { bid * quality }
  }

  /** Per-slot click-through rates of a bidder with the given quality. */
  function Ctrs(quality: real, pos: seq<real>): (r: seq<real>)
    ensures |r| == |pos|
    ensures forall j :: 0 <= j < |pos| ==> r[j] == quality * pos[j]
  {
    seq(|pos|, j requires 0 <= j < |pos| => quality * pos[j])
  }

  function DefaultQualities(n: nat): (q: seq<real>)
    ensures |q| == n
    ensures forall i :: 0 <= i < n ==> q[i] == 1.0
  {
    seq(n, _ => 1.0)
  }

  /** What the eligibility loop computes for the bidder at index k. */
  function EntryFor(spot: AdSpot, bidders: seq<Bidder>, q: seq<real>, vf: ValuationFn, k: nat): (e: Entry)
    requires k < |bidders| == |q|
  {
    var b := bidders[k];
    var v := b.Valuation(spot, vf, Ctrs(q[k], spot.pos));
    Entry(b, v, b.Bid(spot, v), q[k])
  }

  /** The eligible entries among the first n bidders, in bidder order. */
  function EligiblePrefix(spot: AdSpot, bidders: seq<Bidder>, q: seq<real>, vf: ValuationFn, n: nat): (r: seq<Entry>)
    requires n <= |bidders| == |q|
    ensures |r| <= n
    ensures forall e :: e in r ==> e.val > 0.0
  {
    if n == 0 then []
    else
      var e := EntryFor(spot, bidders, q, vf, n - 1);
      EligiblePrefix(spot, bidders, q, vf, n - 1) + (if e.val > 0.0 then [e] else [])
  }

  /** The bidders `assign` keeps: those whose valuation is strictly positive, in bidder order. */
  function Eligible(spot: AdSpot, bidders: seq<Bidder>, q: seq<real>, vf: ValuationFn): (r: seq<Entry>)
    requires |bidders| == |q|
    ensures |r| <= |bidders|
    ensures forall e :: e in r ==> e.val > 0.0
  {
    EligiblePrefix(spot, bidders, q, vf, |bidders|)
  }

  // ---------------------------------------------------------------------------
  // Ranking. `assign` sorts descending by (bid * quality, random draw); the
  // draws are a parameter here: draw(k) is the draw taken for the k-th
  // eligible entry.

  datatype Keyed = Keyed(entry: Entry, draw: real)

  /** a sorts no later than b in the descending (score, draw) order. */
  predicate Ahead(a: Keyed, b: Keyed)
  {
    a.entry.Score() > b.entry.Score() || (a.entry.Score() == b.entry.Score() && a.draw >= b.draw)
  }

  ghost predicate SortedKeyed(s: seq<Keyed>)
  {
    forall i, j :: 0 <= i < j < |s| ==> Ahead(s[i], s[j])
  }

  /** Places k before the first element it is ahead of, so that equal keys keep their input order. */
  function Insert(k: Keyed, s: seq<Keyed>): (r: seq<Keyed>)
    ensures |r| == |s| + 1
  {
    if s == [] || Ahead(k, s[0]) then [k] + s
    else [s[0]] + Insert(k, s[1..])
  }

  /** Insertion sort by `Ahead`; stable, since each element goes in front of the first it is ahead of. */
  function SortKeyed(s: seq<Keyed>): (r: seq<Keyed>)
    ensures |r| == |s|
  {
    if s == [] then [] else Insert(s[0], SortKeyed(s[1..]))
  }

  function Tagged(eligible: seq<Entry>, draw: nat -> real): seq<Keyed>
  {
    seq(|eligible|, i requires 0 <= i < |eligible| => Keyed(eligible[i], draw(i)))
  }

  function Entries(ks: seq<Keyed>): (r: seq<Entry>)
    ensures |r| == |ks|
    ensures forall i :: 0 <= i < |ks| ==> r[i] == ks[i].entry
  {
    seq(|ks|, i requires 0 <= i < |ks| => ks[i].entry)
  }

  /** The ranking of `assign`: a stable sort, descending on (bid * quality, draw). */
  function Rank(eligible: seq<Entry>, draw: nat -> real): (r: seq<Entry>)
    ensures |r| == |eligible|
  {
    Entries(SortKeyed(Tagged(eligible, draw)))
  }

  ghost predicate NonIncreasing(s: seq<Entry>)
  {
    forall i, j :: 0 <= i < j < |s| ==> s[i].Score() >= s[j].Score()
  }

  /** Any ranking the tie-break could produce: a permutation of the eligible
      entries that does not increase in bid * quality. */
  ghost predicate IsRanking(ranked: seq<Entry>, eligible: seq<Entry>)
  {
    multiset(ranked) == multiset(eligible) && NonIncreasing(ranked)
  }

  // ---------------------------------------------------------------------------
  // Allocation and pricing over a ranking.

  /** The price of slot i when the entry ranked i fills it. */
  function SlotPrice(kind: Method, ranked: seq<Entry>, i: nat): (r: real)
    requires i < |ranked|
    ensures kind == FirstPrice ==> r == ranked[i].bid
    ensures kind != FirstPrice && i + 1 < |ranked| ==> r == ranked[i + 1].bid
    ensures kind != FirstPrice && i + 1 == |ranked| ==> r == 0.0
  {
    match kind
    case FirstPrice => ranked[i].bid
    case SecondPrice => if i + 1 < |ranked| then ranked[i + 1].bid else 0.0
    case Gsp => if i + 1 < |ranked| then ranked[i + 1].bid else 0.0
  }

  /** Slot i goes to the entry ranked i while there is one; later slots stay empty at price 0. */
  function Allocate(kind: Method, ranked: seq<Entry>, numSlots: nat): (o: Outcome)
    ensures |o.winners| == numSlots && |o.prices| == numSlots
  {
    Outcome(seq(numSlots, i requires 0 <= i < numSlots => if i < |ranked| then Some(ranked[i].bidder) else None),
            seq(numSlots, i requires 0 <= i < numSlots => if i < |ranked| then SlotPrice(kind, ranked, i) else 0.0))
  }

  /** `AdSpot.assign` as a function of its arguments and the tie-break draws. */
  function AuctionOutcome(spot: AdSpot, bidders: seq<Bidder>, methodName: string,
                          valuationFn: Option<ValuationFn>, qs: Option<seq<real>>,
                          draw: nat -> real): (r: Result<Outcome>)
    ensures r.Failure? <==> valuationFn.None? || (qs.Some? && |qs.value| != |bidders|)
                            || ParseMethod(methodName).Failure?
    ensures valuationFn.None? ==> r == Failure(ValueError(MissingValuationMessage))
    ensures valuationFn.Some? && qs.Some? && |qs.value| != |bidders| ==> r == Failure(ValueError(QsLengthMessage))
    ensures (valuationFn.Some? && !(qs.Some? && |qs.value| != |bidders|)
             && Lower(methodName) !in {"first_price", "second_price", "gsp"})
            ==> r == Failure(ValueError("unknown method: " + Lower(methodName)))
    ensures r.Success? ==> |r.value.winners| == spot.numSlots && |r.value.prices| == spot.numSlots
  {
    if valuationFn.None? then Failure(ValueError(MissingValuationMessage))
    else if qs.Some? && |qs.value| != |bidders| then Failure(ValueError(QsLengthMessage))
    else
      var q := if qs.None? then DefaultQualities(|bidders|) else qs.value;
      match ParseMethod(methodName)
      case Failure(e) => Failure(e)
      case Success(kind) =>
        var eligible := Eligible(spot, bidders, q, valuationFn.value);
        if eligible == [] then Success(EmptyOutcome(spot.numSlots))
        else Success(Allocate(kind, Rank(eligible, draw), spot.numSlots))
  }

  /** The eligibility loop of `assign`: every bidder with a strictly positive
      valuation is kept, with its valuation, bid and quality, in bidder order. */
  method CollectEligible(spot: AdSpot, bidders: seq<Bidder>, q: seq<real>, vf: ValuationFn)
    returns (eligible: seq<Entry>)
    requires |q| == |bidders|
    ensures eligible == Eligible(spot, bidders, q, vf)
    ensures forall e :: e in eligible ==> e.val > 0.0
  {
    eligible := [];
    for i := 0 to |bidders|
      invariant eligible == EligiblePrefix(spot, bidders, q, vf, i)
      invariant forall e :: e in eligible ==> e.val > 0.0
    {
      var b := bidders[i];
      var ctrs := Ctrs(q[i], spot.pos);
      var val := b.Valuation(spot, vf, ctrs);
      if val > 0.0 {
        var bidAmt := b.Bid(spot, val);
        eligible := eligible + [Entry(b, val, bidAmt, q[i])];
      }
    }
  }

  /** The allocation loop of `assign` for first and second price: the first
      `numSlots` ranked entries fill the slots in rank order, each paying its
      own bid or the next entry's bid; the rest of the slots stay None at 0.0. */
  method FillOwnOrNextBid(kind: Method, ranked: seq<Entry>, numSlots: nat) returns (o: Outcome)
    requires kind == FirstPrice || kind == SecondPrice
    ensures o == Allocate(kind, ranked, numSlots)
  {
    var winners := new Option<Bidder>[numSlots](_ => None);
    var prices := new real[numSlots](_ => 0.0);
    var filled := ranked[..Min(numSlots, |ranked|)];
    ghost var spec := Allocate(kind, ranked, numSlots);
    for i := 0 to |filled|
      invariant winners[..i] == spec.winners[..i]
      invariant prices[..i] == spec.prices[..i]
      invariant forall k :: i <= k < numSlots ==> winners[k] == None
      invariant forall k :: i <= k < numSlots ==> prices[k] == 0.0
    {
      winners[i] := Some(filled[i].bidder);
      if kind == FirstPrice {
        prices[i] := filled[i].bid;
      } else {
        prices[i] := if i + 1 < |ranked| then ranked[i + 1].bid else 0.0;
      }
      assert winners[..i + 1] == winners[..i] + [spec.winners[i]];
      assert prices[..i + 1] == prices[..i] + [spec.prices[i]];
    }
    assert winners[..] == spec.winners;
    assert prices[..] == spec.prices;
    o := Outcome(winners[..], prices[..]);
  }

  /** The allocation loop of `assign` for GSP: slot by slot, the entry ranked
      there wins and pays the bid of the entry ranked one below it, or 0.0. */
  method FillGsp(ranked: seq<Entry>, numSlots: nat) returns (o: Outcome)
    ensures o == Allocate(Gsp, ranked, numSlots)
  {
    var winners := new Option<Bidder>[numSlots](_ => None);
    var prices := new real[numSlots](_ => 0.0);
    var filled := ranked[..Min(numSlots, |ranked|)];
    ghost var spec := Allocate(Gsp, ranked, numSlots);
    for slot := 0 to |filled|
      invariant winners[..slot] == spec.winners[..slot]
      invariant prices[..slot] == spec.prices[..slot]
      invariant forall k :: slot <= k < numSlots ==> winners[k] == None
      invariant forall k :: slot <= k < numSlots ==> prices[k] == 0.0
    {
      winners[slot] := Some(filled[slot].bidder);
      if slot + 1 < |ranked| {
        prices[slot] := ranked[slot + 1].bid;
      } else {
        prices[slot] := 0.0;
      }
      assert winners[..slot + 1] == winners[..slot] + [spec.winners[slot]];
      assert prices[..slot + 1] == prices[..slot] + [spec.prices[slot]];
    }
    assert winners[..] == spec.winners;
    assert prices[..] == spec.prices;
    o := Outcome(winners[..], prices[..]);
  }

  /** The two allocation branches of `assign`, chosen by pricing rule. */
  method FillSlots(kind: Method, ranked: seq<Entry>, numSlots: nat) returns (o: Outcome)
    ensures o == Allocate(kind, ranked, numSlots)
  {
    if kind == FirstPrice || kind == SecondPrice {
      o := FillOwnOrNextBid(kind, ranked, numSlots);
    } else {
      o := FillGsp(ranked, numSlots);
    }
  }

  /** `AdSpot.assign`: checks the arguments, collects the eligible bidders,
      ranks them and fills the slots in rank order under the chosen pricing rule. */
  method Assign(spot: AdSpot, bidders: seq<Bidder>, methodName: string,
                valuationFn: Option<ValuationFn>, qs: Option<seq<real>>, draw: nat -> real)
    returns (r: Result<Outcome>)
    ensures r == AuctionOutcome(spot, bidders, methodName, valuationFn, qs, draw)
    ensures r.Failure? <==> valuationFn.None? || (qs.Some? && |qs.value| != |bidders|)
                            || ParseMethod(methodName).Failure?
    ensures r.Success? ==> |r.value.winners| == spot.numSlots && |r.value.prices| == spot.numSlots
  {
    if valuationFn.None? {
      return Failure(ValueError(MissingValuationMessage));
    }
    var q: seq<real>;
    if qs.None? {
      q := DefaultQualities(|bidders|);
    } else if |qs.value| != |bidders| {
      return Failure(ValueError(QsLengthMessage));
    } else {
      q := qs.value;
    }
    var parsed := ParseMethod(methodName);
    if parsed.Failure? {
      return Failure(parsed.error);
    }
    var eligible := CollectEligible(spot, bidders, q, valuationFn.value);
    if eligible == [] {
      return Success(EmptyOutcome(spot.numSlots));
    }
    var ranked := Rank(eligible, draw);
    var o := FillSlots(parsed.value, ranked, spot.numSlots);
    return Success(o);
  }
}
