/** The Platform of sim/ad_auction.py: an ordered, mutable registry of
    bidders that runs one auction per slot set with its own quality rule. */
module Platforms {
  import opened Common
  import opened AdAuction

  /** The bidders' names, in registry order. */
  function Names(bidders: seq<Bidder>): (r: seq<string>)
    ensures |r| == |bidders|
    ensures forall i :: 0 <= i < |bidders| ==> r[i] == bidders[i].name
  {
    seq(|bidders|, i requires 0 <= i < |bidders| => bidders[i].name)
  }

  /** `list.remove`: drops the first element equal to b (for bidders, the same
      object); a list without b comes back unchanged. */
  function RemoveFirst(bidders: seq<Bidder>, b: Bidder): (r: seq<Bidder>)
    ensures |r| == if b in bidders then |bidders| - 1 else |bidders|
    ensures forall x :: x in r ==> x in bidders
  {
    if bidders == [] then []
    else if bidders[0] == b then bidders[1..]
    else [bidders[0]] + RemoveFirst(bidders[1..], b)
  }

  /** The platform's quality rule: 1.0 for the bidder named "STEM"; for any
      other bidder 0.5 when the first tag is "female" and 0.1 otherwise. */
  function Qualities(spot: AdSpot, bidders: seq<Bidder>): (qs: seq<real>)
    requires |spot.tags| > 0
    ensures |qs| == |bidders|
    ensures forall k :: 0 <= k < |bidders| && bidders[k].name == "STEM" ==> qs[k] == 1.0
    ensures forall k :: 0 <= k < |bidders| && bidders[k].name != "STEM" ==>
              qs[k] == (if spot.tags[0] == "female" then 0.5 else 0.1)
    ensures forall k :: 0 <= k < |bidders| ==> 0.0 < qs[k] <= 1.0
  {
    if spot.tags[0] == "female" then
      seq(|bidders|, k requires 0 <= k < |bidders| => if bidders[k].name == "STEM" then 1.0 else 0.5)
    else
      seq(|bidders|, k requires 0 <= k < |bidders| => if bidders[k].name == "STEM" then 1.0 else 0.1)
  }

  /** One iteration of the batch: reading the first tag (which raises on a
      spot without tags), then the spot's own auction with the platform's qualities. */
  function SpotStep(spot: AdSpot, bidders: seq<Bidder>, methodName: string, vf: ValuationFn,
                    draw: nat -> real): (r: Result<Outcome>)
    ensures |spot.tags| == 0 ==> r == Failure(IndexError)
    ensures r.Failure? <==> |spot.tags| == 0 || ParseMethod(methodName).Failure?
    ensures r.Success? ==> |r.value.winners| == spot.numSlots && |r.value.prices| == spot.numSlots
  {
    if |spot.tags| == 0 then Failure(IndexError)
    else AuctionOutcome(spot, bidders, methodName, Some(vf), Some(Qualities(spot, bidders)), draw)
  }

  /** What each spot's iteration of the batch yields on its own; draws(i)
      are the tie-break draws of the i-th auction. */
  function SpotResults(spots: seq<AdSpot>, bidders: seq<Bidder>, methodName: string, vf: ValuationFn,
                       draws: nat -> nat -> real): (rs: seq<Result<Outcome>>)
    ensures |rs| == |spots|
    ensures forall i :: 0 <= i < |spots| ==> rs[i] == SpotStep(spots[i], bidders, methodName, vf, draws(i))
  {
    seq(|spots|, i requires 0 <= i < |spots| => SpotStep(spots[i], bidders, methodName, vf, draws(i)))
  }

  /** The batch loop over the first n per-spot results: the outcomes in spot
      order, or the error of the first spot that raised. */
  function BatchPrefix(rs: seq<Result<Outcome>>, n: nat): (r: Result<seq<Outcome>>)
    requires n <= |rs|
    ensures r.Success? ==> |r.value| == n
  {
    if n == 0 then Success([])
    else
      match BatchPrefix(rs, n - 1)
      case Failure(e) => Failure(e)
      case Success(done) =>
        match rs[n - 1]
        case Failure(e) => Failure(e)
        case Success(o) => Success(done + [o])
  }

  /** `Platform.assign` as a function of the registry and its arguments. */
  function Batch(spots: seq<AdSpot>, bidders: seq<Bidder>, methodName: string,
                 valuationFn: Option<ValuationFn>, draws: nat -> nat -> real): (r: Result<seq<Outcome>>)
    ensures valuationFn.None? ==> r == Failure(ValueError(MissingValuationMessage))
    ensures r.Success? ==> |r.value| == |spots|
  {
    if valuationFn.None? then Failure(ValueError(MissingValuationMessage))
    else
      var rs := SpotResults(spots, bidders, methodName, valuationFn.value, draws);
      BatchPrefix(rs, |rs|)
  }

  /** Once a spot has raised, later spots do not change the outcome. */
  lemma {:induction false} BatchFailureSticks(rs: seq<Result<Outcome>>, n: nat, m: nat)
    requires n <= m <= |rs|
    requires BatchPrefix(rs, n).Failure?
    ensures BatchPrefix(rs, m) == BatchPrefix(rs, n)
  {
    if n < m {
      BatchFailureSticks(rs, n, m - 1);
    }
  }

  class Platform {
    var bidders: seq<Bidder>

    constructor (bidders: seq<Bidder>)
      ensures this.bidders == bidders
    {
      this.bidders := bidders;
    }

    /** Runs one auction per spot, in input order, over the registered bidders. */
    method Assign(spots: seq<AdSpot>, methodName: string, valuationFn: Option<ValuationFn>,
                  draws: nat -> nat -> real)
      returns (r: Result<seq<Outcome>>)
      ensures r == Batch(spots, bidders, methodName, valuationFn, draws)
      ensures valuationFn.None? ==> r == Failure(ValueError(MissingValuationMessage))
    {
      if valuationFn.None? {
        return Failure(ValueError(MissingValuationMessage));
      }
      var vf := valuationFn.value;
      ghost var rs := SpotResults(spots, bidders, methodName, vf, draws);
      var results: seq<Outcome> := [];
      for i := 0 to |spots|
        invariant BatchPrefix(rs, i) == Success(results)
      {
        var spot := spots[i];
        if |spot.tags| == 0 {
          assert rs[i] == Failure(IndexError);
          BatchFailureSticks(rs, i + 1, |spots|);
          return Failure(IndexError);
        }
        var qs := Qualities(spot, bidders);
        var res := AdAuction.Assign(spot, bidders, methodName, Some(vf), Some(qs), draws(i));
        assert rs[i] == res;
        if res.Failure? {
          BatchFailureSticks(rs, i + 1, |spots|);
          return Failure(res.error);
        }
        results := results + [res.value];
      }
      return Success(results);
    }

    method AddBidder(b: Bidder)
      modifies this
      ensures bidders == old(bidders) + [b]
    {
      bidders := bidders + [b];
    }

    /** Removing a bidder that is not registered leaves the registry as it was. */
    method RemoveBidder(b: Bidder)
      modifies this
      ensures bidders == RemoveFirst(old(bidders), b)
      ensures b !in old(bidders) ==> bidders == old(bidders)
    {
      RemoveFirstAbsent(bidders, b);
      bidders := RemoveFirst(bidders, b);
    }

    method ClearBidders()
      modifies this
      ensures bidders == []
    {
      bidders := [];
    }

    function ListBidders(): (names: seq<string>)
      reads this
      ensures |names| == |bidders|
      ensures forall i :: 0 <= i < |bidders| ==> names[i] == bidders[i].name
    {
      Names(bidders)
    }

    /** The first registered bidder with the given name, or None. */
    method GetBidder(name: string) returns (r: Option<Bidder>)
      ensures r.None? <==> forall j :: 0 <= j < |bidders| ==> bidders[j].name != name
      ensures r.Some? ==> exists k :: 0 <= k < |bidders| && bidders[k] == r.value && r.value.name == name
                                      && forall j :: 0 <= j < k ==> bidders[j].name != name
    {
      for i := 0 to |bidders|
        invariant forall j :: 0 <= j < i ==> bidders[j].name != name
      {
        if bidders[i].name == name {
          return Some(bidders[i]);
        }
      }
      return None;
    }
  }

  lemma {:induction false} RemoveFirstAbsent(bidders: seq<Bidder>, b: Bidder)
    ensures b !in bidders ==> RemoveFirst(bidders, b) == bidders
  {
    if bidders != [] && b !in bidders {
      RemoveFirstAbsent(bidders[1..], b);
      assert bidders == [bidders[0]] + bidders[1..];
    }
  }

  /** The position of the first occurrence of a registered bidder. */
  function FirstIndex(bidders: seq<Bidder>, b: Bidder): (k: nat)
    requires b in bidders
    ensures k < |bidders| && bidders[k] == b && b !in bidders[..k]
  {
    if bidders[0] == b then 0
    else
      var k := FirstIndex(bidders[1..], b);
      assert bidders[..k + 1] == [bidders[0]] + bidders[1..][..k];
      k + 1
  }

  /** Removing a bidder whose first occurrence is at k deletes position k. */
  lemma {:induction false} RemoveFirstAt(bidders: seq<Bidder>, b: Bidder, k: nat)
    requires k < |bidders| && bidders[k] == b && b !in bidders[..k]
    ensures RemoveFirst(bidders, b) == bidders[..k] + bidders[k + 1..]
  {
    if k > 0 {
      var tail := bidders[1..];
      assert bidders[0] in bidders[..k];
      assert tail[..k - 1] == bidders[1..k];
      assert b !in tail[..k - 1];
      RemoveFirstAt(tail, b, k - 1);
      assert bidders[..k] == [bidders[0]] + tail[..k - 1];
      assert tail[k - 1 + 1..] == bidders[k + 1..];
    }
  }

  /** Removing a registered bidder deletes exactly its first occurrence. */
  lemma RemoveFirstPresent(bidders: seq<Bidder>, b: Bidder)
    requires b in bidders
    ensures exists k :: 0 <= k < |bidders| && bidders[k] == b && b !in bidders[..k]
                        && RemoveFirst(bidders, b) == bidders[..k] + bidders[k + 1..]
  {
    var k := FirstIndex(bidders, b);
    RemoveFirstAt(bidders, b, k);
  }

  /** Removing a registered bidder takes exactly one copy of it out of the registry. */
  lemma {:induction false} RemoveFirstCount(bidders: seq<Bidder>, b: Bidder)
    requires b in bidders
    ensures multiset(RemoveFirst(bidders, b)) == multiset(bidders) - multiset{b}
  {
    assert bidders == [bidders[0]] + bidders[1..];
    if bidders[0] != b {
      RemoveFirstCount(bidders[1..], b);
    }
  }

  /** The first n spots all succeed exactly when the batch prefix does, and
      then it holds their outcomes in spot order. */
  lemma {:induction false} BatchPrefixSuccess(rs: seq<Result<Outcome>>, n: nat)
    requires n <= |rs|
    ensures BatchPrefix(rs, n).Success? <==> forall i :: 0 <= i < n ==> rs[i].Success?
    ensures BatchPrefix(rs, n).Success? ==>
              |BatchPrefix(rs, n).value| == n
              && forall i :: 0 <= i < n ==> rs[i] == Success(BatchPrefix(rs, n).value[i])
  {
    if n > 0 {
      BatchPrefixSuccess(rs, n - 1);
    }
  }

  /** A successful prefix had no failing spot. */
  lemma {:induction false} BatchPrefixAllSucceeded(rs: seq<Result<Outcome>>, n: nat)
    requires n <= |rs|
    requires BatchPrefix(rs, n).Success?
    ensures forall j :: 0 <= j < n ==> rs[j].Success?
  {
    if n > 0 {
      BatchPrefixAllSucceeded(rs, n - 1);
    }
  }

  /** The first spot whose failure a failing batch prefix reports. */
  lemma {:induction false} FirstFailingSpot(rs: seq<Result<Outcome>>, n: nat) returns (i: nat)
    requires n <= |rs|
    requires BatchPrefix(rs, n).Failure?
    ensures i < n && rs[i] == Failure(BatchPrefix(rs, n).error)
    ensures forall j :: 0 <= j < i ==> rs[j].Success?
  {
    var prev := BatchPrefix(rs, n - 1);
    if prev.Failure? {
      i := FirstFailingSpot(rs, n - 1);
    } else {
      BatchPrefixAllSucceeded(rs, n - 1);
      i := n - 1;
    }
  }

  /** A failing batch prefix carries the error of its first failing spot. */
  lemma BatchPrefixFailure(rs: seq<Result<Outcome>>, n: nat)
    requires n <= |rs|
    requires BatchPrefix(rs, n).Failure?
    ensures exists i :: 0 <= i < n && rs[i] == Failure(BatchPrefix(rs, n).error)
                        && forall j :: 0 <= j < i ==> rs[j].Success?
  {
    var i := FirstFailingSpot(rs, n);
  }

  lemma BatchInOrder(spots: seq<AdSpot>, bidders: seq<Bidder>, methodName: string,
                     valuationFn: Option<ValuationFn>, draws: nat -> nat -> real)
    ensures var r := Batch(spots, bidders, methodName, valuationFn, draws);
            && (valuationFn.None? ==> r == Failure(ValueError(MissingValuationMessage)))
            && (r.Success? ==>
                  (&& valuationFn.Some? && |r.value| == |spots|
                   && forall i :: 0 <= i < |spots| ==>
                        (&& |spots[i].tags| > 0
                         && AuctionOutcome(spots[i], bidders, methodName, valuationFn,
                                           Some(Qualities(spots[i], bidders)), draws(i)) == Success(r.value[i]))))
  {
    if valuationFn.Some? {
      var rs := SpotResults(spots, bidders, methodName, valuationFn.value, draws);
      BatchPrefixSuccess(rs, |rs|);
      var r := BatchPrefix(rs, |rs|);
      if r.Success? {
        forall i | 0 <= i < |spots|
          ensures |spots[i].tags| > 0
          ensures AuctionOutcome(spots[i], bidders, methodName, valuationFn,
                                 Some(Qualities(spots[i], bidders)), draws(i)) == Success(r.value[i])
        {
          assert rs[i] == Success(r.value[i]);
        }
      }
    }
  }

  /** An unknown method is only reported once there is a spot to auction:
      an empty batch succeeds with no results whatever the method name. */
  lemma UnknownMethodNeedsASpot(spots: seq<AdSpot>, bidders: seq<Bidder>, methodName: string,
                                vf: ValuationFn, draws: nat -> nat -> real)
    requires ParseMethod(methodName).Failure?
    ensures spots == [] ==> Batch(spots, bidders, methodName, Some(vf), draws) == Success([])
    ensures spots != [] && |spots[0].tags| > 0 ==>
            Batch(spots, bidders, methodName, Some(vf), draws) == Failure(ParseMethod(methodName).error)
  {
    if spots != [] && |spots[0].tags| > 0 {
      var rs := SpotResults(spots, bidders, methodName, vf, draws);
      BatchFailureSticks(rs, 1, |spots|);
    }
  }
}
