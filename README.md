# Sealed-bid ad auction clearing, in Dafny

This project models the auction engine of `sim/ad_auction.py` and proves properties of it. The engine covers three kinds of object:

- **Bidder**: a name, a targeting map and an optional bidding strategy.
- **AdSpot**: a slot set with a slot count, context tags and a click probability per slot position.
- **Platform**: an ordered, mutable registry of bidders that runs one auction per slot set.

One auction (`AdSpot.assign`) works as follows:

- It checks its arguments.
- It computes each bidder's per-slot CTRs, which are the bidder's quality times the slot's position weight.
- It keeps the bidders whose valuation is strictly positive.
- It ranks them in descending order of `bid * quality`. A random draw breaks ties.
- It fills the slots in rank order.
- It prices each filled slot by one of three rules:
  - first price: the winner pays its own bid;
  - second price and GSP: the winner of slot `i` pays the raw bid of the entry ranked `i + 1`, or 0.0 if there is none.

Files:

- `common.dfy` (module `Common`): `Option` stands for Python's `None`. `Result`/`Error` stand for the exceptions raised (`AssertionError`, `ValueError` with its message, `IndexError`). It also holds ASCII lower-casing.
- `ad_auction.dfy` (module `AdAuction`):
  - `Bidder` is a class whose identity is its reference, like a Python object without `__eq__`.
  - `AdSpot` is a datatype, built by `NewAdSpot`.
  - The file also holds method parsing, eligibility, the ranking sort, `Allocate` (the allocation and pricing specification) and `AuctionOutcome` (the whole auction as a function).
  - The imperative `Assign` is split into `CollectEligible` (the eligibility loop) and `FillSlots`, which runs one of the two allocation loops (`FillOwnOrNextBid` or `FillGsp`) over fresh arrays. `Assign` is proved equal to `AuctionOutcome`.
- `auction_properties.dfy` (module `AuctionProperties`): lemmas about eligibility, ranking, slot filling and pricing. Each property is stated for every ranking the tie-break could produce. `IsRanking` means "a permutation of the eligible entries that does not increase in `bid * quality`". `RankIsRanking` proves that the engine's own sort gives such a ranking for any draws.
- `platform.dfy` (module `Platforms`): the `Platform` class with its registry operations and batch `Assign`. `Batch` is the batch as a function: the per-spot results (`SpotResults`), folded in spot order by `BatchPrefix`, where the first error wins. The file also holds the lemmas about it.
- `scenarios.dfy` (module `Scenarios`): some of the cases in `tests/test_ad_auction.py` and `tests/test_experiments_and_ad_auction_coverage.py`, proved over the model for every value of the tie-break draws. These cover the auction runs, the argument errors, the tie, a two-spot platform batch and the slot-set checks; the registry tests are not restated.

The random tie-break is a parameter. `draw(k)` is the draw taken for the k-th eligible entry, and `Rank` is a stable descending sort on the pair (score, draw), as Python's `sorted(..., reverse=True)` is. `Platform.Assign` takes `draws(i)` for the i-th auction. Same inputs and same draws therefore give the same result, because `Assign` is proved equal to a function of them.

Two points where the code promises less than one might expect, and the model follows the code:

- A filled slot can have price 0.0: under second price and GSP, the lowest-ranked entry has nobody below it (`LastWinnerPaysNothing`, `FewerBiddersThanSlots`). So "winner empty if and only if price 0" holds only in one direction: an empty slot has price 0.0 (`FillsRankPrefix`).
- Prices are not always non-negative: a custom bidding strategy may return a negative bid, and only the valuation must be positive.

## Model

| member | source | states |
|---|---|---|
| `AdAuction.Bidder.constructor` | sim/ad_auction.py:17-38 | stores the name, targeting and strategy; no strategy means truthful bidding |
| `AdAuction.Bidder.Valuation` | sim/ad_auction.py:40-51 | the valuation is the caller's valuation_fn applied to this bidder, the spot and the CTRs, with nothing added |
| `AdAuction.Bidder.Bid` | sim/ad_auction.py:53-63 | without a strategy the bid equals the valuation; otherwise it is the strategy's value for this bidder, spot and valuation |
| `AdAuction.NewAdSpot` | sim/ad_auction.py:78-102 | fails with AssertionError when num_slots < 1, with ValueError when pos has the wrong length or a value outside [0,1], and succeeds exactly otherwise; the result is a valid slot set, and pos defaults to num_slots copies of 1.0 |
| `AdAuction.ParseMethod` | sim/ad_auction.py:138-140 | succeeds exactly when the lower-cased name is first_price, second_price or gsp, with the method of that name; otherwise it fails with "unknown method: " plus the lower-cased name |
| `AdAuction.Ctrs` | sim/ad_auction.py:145 | one CTR per slot, quality times that slot's position weight |
| `AdAuction.DefaultQualities` | sim/ad_auction.py:133-134 | a missing Qs is one 1.0 per bidder |
| `AdAuction.Allocate` | sim/ad_auction.py:168-169 | winners and prices each have exactly num_slots entries |
| `AdAuction.EligiblePrefix` | sim/ad_auction.py:142-149 | the entries kept from the first n bidders are at most n, each with a valuation > 0 |
| `AdAuction.Eligible` | sim/ad_auction.py:142-149 | at most one entry per bidder, each with a valuation > 0 |
| `AdAuction.Insert` | sim/ad_auction.py:160-163 | inserting into the sorted list adds exactly one element |
| `AdAuction.SortKeyed` | sim/ad_auction.py:160-163 | sorting keeps the number of entries |
| `AdAuction.Rank` | sim/ad_auction.py:159-163 | the ranking has one entry per eligible entry |
| `AdAuction.SlotPrice` | sim/ad_auction.py:174-190 | first price charges the winner's own bid; second price and GSP charge the bid of the entry ranked next, or 0.0 for the last ranked entry |
| `AdAuction.AuctionOutcome` | sim/ad_auction.py:104-198 | raises the missing-valuation_fn error, then the Qs-length error, then ValueError("unknown method: " + the lower-cased name), and fails exactly in those cases; a success has num_slots winners and prices |
| `AdAuction.CollectEligible` | sim/ad_auction.py:142-149 | the loop yields exactly the eligible entries in bidder order, each with a valuation > 0 |
| `AdAuction.FillOwnOrNextBid` | sim/ad_auction.py:171-180 | the first/second-price loop fills each slot with the entry ranked there, at its own bid or the next entry's bid, and produces exactly the allocation specification |
| `AdAuction.FillGsp` | sim/ad_auction.py:181-190 | the GSP loop produces exactly the allocation specification for GSP |
| `AdAuction.FillSlots` | sim/ad_auction.py:168-190 | whichever loop the pricing rule selects, the result is exactly the allocation specification for the ranking |
| `AdAuction.Assign` | sim/ad_auction.py:104-198 | equals the auction function; fails exactly when valuation_fn is missing, Qs has the wrong length or the method is unknown; on success both lists have num_slots entries |
| `AuctionProperties.EligibleMembership` | sim/ad_auction.py:143-149 | an entry is eligible if and only if it is some bidder's (bidder, valuation, bid, quality) and that valuation is > 0 |
| `AuctionProperties.EligibleEmptyIff` | sim/ad_auction.py:143-152 | nobody is eligible if and only if every bidder's valuation is <= 0 |
| `AuctionProperties.EligibleInBidderOrder` | sim/ad_auction.py:142-149 | the eligible list is exactly the bidders with valuation > 0, each once, in bidder order: entry i is the bidder at index idx[i], the indices strictly increase, and an index appears exactly when its valuation is > 0 |
| `AuctionProperties.AllPositiveAllEligible` | sim/ad_auction.py:143-149 | when every valuation is > 0, every bidder is eligible, in bidder order |
| `AuctionProperties.RankIsRanking` | sim/ad_auction.py:160-163 | for any draws, the sorted list is a permutation of the eligible entries, non-increasing in bid * quality |
| `AuctionProperties.RankBreaksTiesByDraw` | sim/ad_auction.py:160-163 | when the entries ranked i < j have equal bid * quality, they come from input positions k1 and k2 with draw(k1) >= draw(k2): the larger of the caller's draws ranks first |
| `AuctionProperties.RankKeepsDecreasing` | sim/ad_auction.py:160-163 | entries already strictly decreasing in bid * quality keep their order whatever the draws |
| `AuctionProperties.FillsRankPrefix` | sim/ad_auction.py:168-185 | for any ranking: slots 0 .. min(num_slots, #eligible) - 1 are filled, slot i by the entry ranked i, and no others are; each later slot is None with price 0.0 |
| `AuctionProperties.OnlyEligibleWin` | sim/ad_auction.py:143-175 | for any ranking, every winner is a listed bidder whose valuation is > 0 |
| `AuctionProperties.WinnersOutrankTheRest` | sim/ad_auction.py:160-175 | for any ranking, no eligible entry left without a slot scores above any winner; the first part, that the winners do not increase in bid * quality, is the ranking's own order restricted to the filled slots |
| `AuctionProperties.FirstPricePaysOwnBid` | sim/ad_auction.py:174-177 | first price: the winner of each filled slot pays its own bid |
| `AuctionProperties.TruthfulFirstPricePaysValuation` | sim/ad_auction.py:36-38 | first price with truthful bidders: each winner pays its own valuation, which is > 0 |
| `AuctionProperties.NextBidPricing` | sim/ad_auction.py:178-190 | second price and GSP: the winner of slot i pays the raw bid of the entry ranked i + 1, or 0.0 when there is none |
| `AuctionProperties.GspMatchesSecondPrice` | sim/ad_auction.py:171-190 | for the same ranking, GSP and second price give identical winners and prices |
| `AuctionProperties.GspAuctionMatchesSecondPrice` | sim/ad_auction.py:171-190 | "gsp" and "second_price" give identical auction results for the same arguments and draws |
| `AuctionProperties.LastWinnerPaysNothing` | sim/ad_auction.py:179 | under second price and GSP, for any ranking that fits in the slots, the last ranked entry wins its slot and pays 0.0 |
| `AuctionProperties.OutcomeIsAllocation` | sim/ad_auction.py:151-190 | a successful auction had a valuation_fn, a well-sized Qs and a known method, and its result is the allocation of some ranking of the eligible entries |
| `AuctionProperties.NoEligibleMeansEmpty` | sim/ad_auction.py:151-153 | if no valuation is > 0, every winner is None and every price is 0.0 |
| `AuctionProperties.MethodCaseInsensitive` | sim/ad_auction.py:138 | an auction under a method name equals the auction under its lower-cased form |
| `AuctionProperties.ParseMethodName` | sim/ad_auction.py:139 | each of the three method names parses to its own method |
| `Common.Lower` | sim/ad_auction.py:138 | each character is lower-cased (ASCII A-Z only), and the length is kept |
| `Common.LowerIdempotent` | sim/ad_auction.py:138 | lower-casing twice gives the same result as lower-casing once |
| `Platforms.Qualities` | sim/ad_auction.py:239-242 | one score per bidder: 1.0 for "STEM"; for every other bidder 0.5 when the first tag is "female", else 0.1 |
| `Platforms.SpotStep` | sim/ad_auction.py:238-245 | a spot without tags raises IndexError; otherwise the spot fails exactly when the method is unknown, and a success has num_slots winners and prices |
| `Platforms.SpotResults` | sim/ad_auction.py:234-245 | one result per spot, each that spot's own step, in spot order |
| `Platforms.BatchPrefix` | sim/ad_auction.py:234-248 | a successful prefix of n spots has exactly n results |
| `Platforms.Batch` | sim/ad_auction.py:231-248 | a missing valuation_fn raises ValueError; a success has one result per spot |
| `Platforms.BatchFailureSticks` | sim/ad_auction.py:234-248 | once a spot has raised, later spots do not change the outcome |
| `Platforms.BatchPrefixSuccess` | sim/ad_auction.py:234-248 | the batch succeeds exactly when every spot's auction does, with their results in input order |
| `Platforms.BatchPrefixFailure` | sim/ad_auction.py:234-248 | a failing batch raises the error of its first failing spot |
| `Platforms.BatchInOrder` | sim/ad_auction.py:231-248 | a missing valuation_fn raises; otherwise a successful batch has one result per spot, in input order, each that spot's auction under the platform's quality scores |
| `Platforms.UnknownMethodNeedsASpot` | sim/ad_auction.py:234-245 | an unknown method raises only when there is a spot to auction; an empty batch returns no results |
| `Platforms.Platform.constructor` | sim/ad_auction.py:204-210 | the registry starts as the given bidder list |
| `Platforms.Platform.Assign` | sim/ad_auction.py:212-248 | equals the batch function of the registry and arguments; fails with ValueError when valuation_fn is missing |
| `Platforms.Platform.AddBidder` | sim/ad_auction.py:250-256 | appends the bidder |
| `Platforms.Platform.RemoveBidder` | sim/ad_auction.py:258-270 | removes the first occurrence of the bidder; an absent bidder leaves the list unchanged |
| `Platforms.RemoveFirst` | sim/ad_auction.py:266 | removal shortens the registry by one exactly when the bidder is in it, and adds no one |
| `Platforms.RemoveFirstAbsent` | sim/ad_auction.py:264-270 | removing an absent bidder changes nothing |
| `Platforms.RemoveFirstPresent` | sim/ad_auction.py:266 | removing a present bidder deletes exactly its first occurrence |
| `Platforms.RemoveFirstCount` | sim/ad_auction.py:266 | removing a present bidder takes exactly one copy of it out of the registry |
| `Platforms.Platform.ClearBidders` | sim/ad_auction.py:272-274 | the registry becomes empty |
| `Platforms.Platform.ListBidders` | sim/ad_auction.py:282-284 | the registered bidders' names, one per bidder, in registry order |
| `Platforms.Platform.GetBidder` | sim/ad_auction.py:286-298 | None exactly when no registered bidder has the name; otherwise the first registered bidder with that name |
| `Scenarios.FirstPriceOneSlot` | tests/test_ad_auction.py:95-102 | one slot, values 3.0 and 2.0, first price: A wins and pays 3.0 |
| `Scenarios.SecondPriceTwoSlots` | tests/test_ad_auction.py:105-119 | two slots, values 5, 3 and 1, second price: A and B win and pay 3.0 and 1.0 |
| `Scenarios.GspThreeSlots` | tests/test_ad_auction.py:134-145 | three slots at positions 1.0, 0.6 and 0.3, values 10, 6, 4 and 1, GSP: A, B and C win and pay 6.0, 4.0 and 1.0 |
| `Scenarios.FewerBiddersThanSlots` | tests/test_ad_auction.py:122-131 | one bidder, three slots, second price: slot 0 goes to A at 0.0 and the other slots stay empty |
| `Scenarios.UnrelatedTagLeavesSlotsEmpty` | tests/test_ad_auction.py:85-90 | a bidder with no value for the spot's tag leaves both slots empty at price 0.0 |
| `Scenarios.QsLengthMismatch` | tests/test_experiments_and_ad_auction_coverage.py:19-24 | two quality scores for one bidder raise the Qs-length ValueError |
| `Scenarios.AdSpotRejections` | tests/test_ad_auction.py:46-63 | a short pos and num_slots = 0 are rejected, and pos defaults to [1.0, 1.0] |
| `Scenarios.PosOutOfRangeRejected` | tests/test_experiments_and_ad_auction_coverage.py:13-16 | a pos value of 1.2 is rejected with the range ValueError |
| `Scenarios.GspFewerBiddersThanSlots` | tests/test_ad_auction.py:148-157 | GSP with values 3 and 1 over three slots: A and B win the first two slots at 1.0 and 0.0, and the third stays empty |
| `Scenarios.MissingValuationRaises` | tests/test_ad_auction.py:68-72 | an auction without valuation_fn raises the missing-valuation ValueError |
| `Scenarios.UnknownMethodRaises` | tests/test_ad_auction.py:75-80 | "not_a_method" raises ValueError("unknown method: not_a_method") |
| `Scenarios.TieEitherOrder` | tests/test_ad_auction.py:186-193 | under first price, two equal bidders over two slots both win, in one order or the other depending on the draws, and each pays 1.0 |
| `Scenarios.PlatformTwoSpots` | tests/test_ad_auction.py:162-173 | under first price, two spots give two results, with one winner and one price per slot of each spot |
| `Scenarios.PlatformNeedsValuation` | tests/test_ad_auction.py:176-179 | the platform raises the missing-valuation ValueError |

## Left out

- Floating point: bids, valuations, qualities and prices are reals. IEEE rounding, NaN (which would pass the `pos` range check) and the `float(...)` coercion in `Bidder.bid` with its `TypeError` path are not modelled.
- The random source: `random.random()` becomes the caller-supplied draws described above, so the model says nothing about how likely each tie-break order is.
- User-supplied `valuation_fn` and `bid_func` are opaque total functions.
- A bidding strategy sees the bidder as a value (its name and targeting), not as the object. Dafny does not let a function stored in an object's field take that object. The name and targeting are therefore constant, and the model does not capture an owner changing a bidder's targeting in place.
- `str.lower()` is modelled on ASCII letters only; Unicode case mapping is not.
- The default `method="second_price"` of both `AdSpot.assign` and `Platform.assign` (sim/ad_auction.py:107 and 215): every call in the model names its method, so calling without one is not modelled. Passing "second_price" gives the same result.
- The warning printed by `remove_bidder` for an absent bidder, and `Bidder.__repr__`, `Platform.__repr__` and `Platform.__str__`: these are output and string formatting.
- Monotonicity in valuation (raising a bidder's valuation never costs it a slot) is not proved. A custom bidding strategy may lower a bid when the valuation rises, so the code does not promise it.
- `AdSpot` fields are fixed after construction. The code never reassigns them, but Python would allow it.
- experiments/experiment_gender_allocation.py and demo.py: simulation drivers, aggregation, printing and plotting, with no allocation logic.
