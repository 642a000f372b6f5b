# AdWords online matching, modelled in Dafny

adwords.py assigns a stream of search queries to advertisers. Each advertiser
bids on keywords and has a budget. A query for a keyword goes to one of the
advertisers that bid on it and can still pay their bid. The winner is picked
by one of three strategies:

- greedy: the highest bid;
- balance: the most budget left;
- msvv: the highest bid scaled by psi(fraction of the budget spent).

The winner's budget drops by its bid, and the bid is earned as revenue.
`competitive_ratio` runs the allocator on 100 shuffles of the query list and
divides the mean revenue by an offline optimum.

The project has six modules:

- `Wrappers` (wrappers.dfy): `Option`.
- `BidderCatalog` (catalog.dfy):
  - the bid table: keyword to bid rows;
  - the budget table: a class `BudgetTable` whose budget column is updated in place;
  - `InterestedRows`, which models `find_interested_bidder_budget_df`;
  - the first-row bid lookup `BidOf`;
  - `Sum` over the budget table.
- `SortedSelection` (selection.dfy): "sort by a two-part key, take the first
  row that passes a test". All three strategies share this shape.
- `MatchingStrategy` (strategies.dfy): `SelectGreedy`, `SelectBalance`,
  `SelectMsvv` and the dispatch `Select`, with lemmas on how msvv ranks bidders.
- `OnlineAllocator` (allocator.dfy):
  - `Run`, the specification of one pass of `adwords`;
  - its lemmas: frame, budget bounds, conservation, additivity;
  - the imperative loop `Allocate` / `Adwords` over a `BudgetTable`.
- `CompetitiveRatioEstimator` (estimator.dfy):
  - `Trials`, the 100 passes as written, with no budget reset;
  - the imperative loop `Estimate` / `CompetitiveRatio`, which shuffles a query array in place;
  - the corrected variant that restores the budgets before every pass.
- `ResetExample` (reset_example.dfy): a one-advertiser market on which the
  two variants give the ratios 1/100 and 1.

A strategy is passed to the allocation loop as a `Rule`. A rule is a function
of (call-start snapshot, live budgets, keyword) that returns an `Outcome`
(winner, charge). The `if algo == ...` chain of `adwords` is
`MatchingStrategy.Select`. `OnlineAllocator.Decide` hands it the bid rows of
the query, and `OnlineAllocator.Strategy` wraps `Decide` as the rule the loop
calls. The loop is proved for every `Sound` rule: one whose winner bid
exactly the charge on the keyword and can pay it. The three strategies are
shown to be sound.

External inputs are parameters:

- `math.exp` in msvv's discount becomes `psi: real -> real`, so psi(x) is
  `1 - exp(x - 1)` in the source. The msvv lemmas assume only what they
  state: psi(0) > 0, or psi strictly decreasing. The source's psi has both.
- `random.seed(0)` / `random.shuffle` becomes `shuffle(list, t)`, the
  order of pass t. It only has to keep the length and draw every entry
  from the list (`Shuffles`), which every permutation does.
- Floating-point numbers are `real`.

## Model

| member | source | states |
|---|---|---|
| BidderCatalog.InterestedRows | adwords.py:56-64 | the rows kept are exactly the budget-table rows whose advertiser holds a bid for the query, each with its current budget, in table order |
| BidderCatalog.BidOf | adwords.py:85-86 | the bid read for an advertiser is the value of its first row in the keyword's bid rows; with one row per advertiser it is that row's value |
| BidderCatalog.BudgetTable.Charge | adwords.py:169-171 | the designated bidder's budget drops by the charge; every other row is unchanged and the table keeps its shape |
| SortedSelection.FirstInOrder | adwords.py:101-105 | sort-then-scan returns nothing iff no candidate passes the test; otherwise a candidate that passes, ahead of which in sort order no candidate passes |
| MatchingStrategy.SelectGreedy | adwords.py:92-107 | no winner (charge 0) iff no bidder can afford its bid; otherwise the winner bid exactly the charge, can pay it, and every affordable bid is lower, or equal with a higher or equal advertiser id |
| MatchingStrategy.SelectBalance | adwords.py:66-90 | no winner (charge 0) iff no interested row can afford its bid; otherwise the winner is an interested advertiser charged its bid, and every eligible row has less budget left, or as much with a higher or equal id |
| MatchingStrategy.SelectMsvv | adwords.py:109-146 | no winner (charge 0) iff no interested row can afford its bid; otherwise the winner is charged its unscaled bid, and every eligible row scales lower, or equal and later in table order (stable sort) |
| MatchingStrategy.Scale | adwords.py:126-135 | bidder_scale_list holds every interested row with bid * psi((snapshot - budget) / snapshot), and nothing else |
| MatchingStrategy.MsvvAtSnapshotHighestBid | adwords.py:131-137 | when nothing has been spent since the snapshot and psi(0) > 0, the msvv winner's bid is the highest affordable bid |
| MatchingStrategy.MsvvFavoursLessSpent | adwords.py:131-137 | with psi strictly decreasing, an eligible bidder offering the same positive bid as the msvv winner has spent at least as large a share of its snapshot budget |
| MatchingStrategy.Select | adwords.py:161-166 | whichever strategy runs, no winner means charge 0, and a winner bid exactly the charge and can pay it |
| OnlineAllocator.Decide | adwords.py:160-166 | the outcome for a query comes from its own bid rows and fits them: the winner bid the charge and can afford it |
| OnlineAllocator.StrategySound | adwords.py:160-166 | greedy (when every bidder has a budget row), balance, and msvv (with a nonzero snapshot and one row per bidder) are sound rules for every budget table |
| OnlineAllocator.Step | adwords.py:159-172 | one query leaves a budget table with the same advertisers |
| OnlineAllocator.StepFrame | adwords.py:168-172 | one query changes only the winner's budget, by exactly the charge and not below zero, adds the charge to the revenue, and changes nothing without a winner |
| OnlineAllocator.StepConservation | adwords.py:168-172 | one query moves exactly its charge from the budgets to the revenue |
| OnlineAllocator.StepBounds | adwords.py:168-172 | a non-negative budget stays non-negative, and with non-negative bids no budget grows |
| OnlineAllocator.Run | adwords.py:157-174 | a pass keeps the budget table's advertisers |
| OnlineAllocator.BudgetsNonNegative | adwords.py:157-174 | budgets that start non-negative stay non-negative through a pass |
| OnlineAllocator.BudgetsNonIncreasing | adwords.py:157-174 | with non-negative bids, every budget after the whole pass is at most what it was after any prefix |
| OnlineAllocator.RevenueConservation | adwords.py:157-174 | the revenue plus the budgets left equals the budgets at the start |
| OnlineAllocator.RevenueBounds | adwords.py:157-174 | the revenue of a pass lies between 0 and the sum of the starting budgets |
| OnlineAllocator.RunAppend | adwords.py:157-174 | running a + b equals running a, then b from the budgets a left, with the revenues added |
| OnlineAllocator.Allocate | adwords.py:157-174 | the loop leaves the budget table as the pass specification does, returns its revenue, and revenue plus remaining budgets equals the budgets at entry; an empty query list earns 0 and leaves the table unchanged |
| OnlineAllocator.Adwords | adwords.py:148-174 | adwords with the chosen strategy is sound and ends in the table and revenue of the pass specification, with the call-start table as the msvv snapshot |
| CompetitiveRatioEstimator.PermutationRearranges | adwords.py:185 | a permutation of the query list keeps its length and draws every entry from it |
| CompetitiveRatioEstimator.Trials | adwords.py:181-186 | the passes keep the budget table's shape |
| CompetitiveRatioEstimator.TrialsDefined | adwords.py:183-186 | a rule sound against every budget table runs all passes over known keywords |
| CompetitiveRatioEstimator.GreedyBalanceTrialsDefined | adwords.py:183-186 | greedy and balance never fail a pass: all 100 passes are defined |
| CompetitiveRatioEstimator.Ratio | adwords.py:188-189 | ratio * 100 * optimal equals the summed revenue |
| CompetitiveRatioEstimator.RatioBound | adwords.py:188-189 | a summed revenue of at most share * optimal gives a ratio of at most share / 100 |
| CompetitiveRatioEstimator.ShuffleInPlace | adwords.py:185 | the query array afterwards holds the shuffle of its old contents |
| CompetitiveRatioEstimator.ShuffleAndAllocate | adwords.py:184-186 | one iteration: the array is shuffled in place, and the table and revenue are those of a pass over the shuffled list from the budgets at entry |
| CompetitiveRatioEstimator.Estimate | adwords.py:176-190 | the loop ends with the table, query list and ratio of 100 passes without a reset (`Trials`) |
| CompetitiveRatioEstimator.CompetitiveRatio | adwords.py:176-190 | competitive_ratio with the chosen strategy, as written: 100 passes on the shared, never-restored table |
| CompetitiveRatioEstimator.TrialsConservation | adwords.py:183-186 | the revenue summed over the passes plus the budgets left equals the budgets at entry |
| CompetitiveRatioEstimator.TrialsNonNegative | adwords.py:183-186 | budgets that start non-negative stay non-negative across all passes |
| CompetitiveRatioEstimator.TrialsRevenueNonNegative | adwords.py:183-186 | with non-negative bids and budgets at entry, the revenue summed over the passes is non-negative |
| CompetitiveRatioEstimator.NoResetRatioAtMostOnePercent | adwords.py:183-189 | as written, against an optimum of at least the budgets at entry, the ratio is at most 1/100, and with non-negative bids at least 0 |
| CompetitiveRatioEstimator.TrialsWithReset | adwords.py:183-186 | corrected passes: every pass runs from the budgets at entry, the query list stays known, and the table keeps its shape |
| CompetitiveRatioEstimator.EstimateWithReset | adwords.py:176-190 | the corrected loop restores the budgets at entry before each pass and returns the ratio of `TrialsWithReset` |
| CompetitiveRatioEstimator.CompetitiveRatioWithReset | adwords.py:176-190 | competitive_ratio with the reset, for the chosen strategy |
| CompetitiveRatioEstimator.ResetRevenueBounds | adwords.py:183-186 | with the reset, n passes earn between 0 and n times the budgets at entry |
| CompetitiveRatioEstimator.ResetRatioBounds | adwords.py:183-189 | with the reset and the budgets at entry as the optimum, the ratio lies in [0, 1] |
| ResetExample.NoResetEarnsOnce | adwords.py:183-186 | as written, in the one-advertiser market every pass after the first starts from a budget of 0, and the passes earn 1 in all |
| ResetExample.ResetEarnsEveryPass | adwords.py:183-186 | with the reset, the same market earns 1 in every pass |
| ResetExample.RatioWithoutReset | adwords.py:176-190 | as written, the ratio for that market is 1/100 |
| ResetExample.RatioWithReset | adwords.py:176-190 | with the reset, the ratio for that market is 1 |

## Left out

- `read_filter_data` and `main` read CSV and text files and the command line. The
  bid table, the budget table and the query list are inputs here. The
  optimum `main` computes, the sum of the loaded budgets, is `Sum`.
- `math.exp` is the parameter `psi`. `random.seed` / `random.shuffle`
  is the parameter `shuffle`. The model does not fix which permutation a pass uses.
- Floating point is modelled as exact `real` arithmetic: no rounding and no NaN.
- A keyword nobody bids on is not treated as "no bidders":
  `bidder_df.loc[[query]]` (adwords.py:160) raises KeyError, and the model
  follows the code. `Allocate` and `Adwords` require every query keyword to
  have bid rows, and `Trials` yields None.
- OnlineAllocator.Adwords, CompetitiveRatioEstimator.CompetitiveRatioWithReset:
  for greedy, require every bidder to have a budget row (`Covers`).
  Greedy's lookup `bidder_budget_df.loc[...]` (adwords.py:103) raises
  KeyError otherwise. Balance and msvv pass over such a bidder, and the
  model demands nothing of them.
- OnlineAllocator.Adwords, CompetitiveRatioEstimator.CompetitiveRatioWithReset:
  msvv requires a nonzero snapshot budget for every advertiser. With a zero
  snapshot the source divides 0 by 0 (adwords.py:131) and sorts NaN scores.
  As written, `Trials` yields None when a pass meets such a snapshot.
- MatchingStrategy.SelectMsvv: requires at most one bid row per advertiser
  and keyword. With two rows, `.loc[bidder]` (adwords.py:133, 141) returns
  a frame rather than a number.
- MatchingStrategy.SelectMsvv: reads the winner's budget with
  `interested_bidder_budget_df.loc[bidder]` (adwords.py:142), a row
  label. After `reset_index` the label is the row's position in the budget
  table. This equals the advertiser id only when the ids are 0, 1, 2, ... in
  table order. The model reads the budget by advertiser id.
- An `algo` other than greedy, balance or msvv leaves `designated_bidder`
  unbound in the source. `Algo` has only the three strategies.
- CompetitiveRatioEstimator.Estimate, CompetitiveRatio: require
  `optimal != 0`. `main` passes a numpy float as the optimum
  (adwords.py:196), so the division at adwords.py:189 would then give an
  infinity or NaN. Exact `real` has neither.
- CompetitiveRatioEstimator.Estimate, CompetitiveRatio: require the 100
  passes to be defined (`Trials(...).Some?`), that is, no pass meets an
  unknown keyword or a zero msvv snapshot.
  `GreedyBalanceTrialsDefined` discharges this for greedy and balance.

## Findings

| source | as written | input that shows it | evidently intended | confidence | as-written member | corrected member |
|---|---|---|---|---|---|---|
| adwords.py:183-186 | the 100 passes share one budget table and nothing restores it, so each pass starts from the budgets the previous pass left and the revenue of all passes together is at most the budgets loaded once | one advertiser with budget 1 bidding 1 on "k", queries ["k"], greedy, optimum 1 (the sum of the budgets): the first pass earns 1, the other 99 earn 0, ratio 1/100 | every pass starts from the budgets competitive_ratio was called with (the "mean revenue over 100 permutations" of the docstring); the same input gives ratio 1. `main` (adwords.py:209-211) runs one `adwords` pass before `competitive_ratio` on the same table, and the corrected variant does not undo it: it restores the budgets as it finds them | not executed | ResetExample.RatioWithoutReset | ResetExample.RatioWithReset |
