/**
 * A one-advertiser market that shows what the missing budget reset in
 * competitive_ratio costs: advertiser 0 has a budget of 1 and bids 1 on the
 * only keyword "k", the query list is ["k"] and the optimum is the sum of the
 * budgets, 1, as main computes it. With greedy, the first pass spends the
 * whole budget; as written every later pass starts from a budget of 0 and
 * earns nothing, so the ratio is 1/100. Restoring the budget before every
 * pass earns 1 per pass and gives the ratio 1.
 */
module ResetExample {
  import opened Wrappers
  import opened BidderCatalog
  import opened MatchingStrategy
  import opened OnlineAllocator
  import opened CompetitiveRatioEstimator

  const Bids: Catalog := map["k" := [Bid(0, 1.0)]]
  const Advertisers: seq<Adv> := [0]
  const Loaded: Budgets := map[0 := 1.0]
  const Queries: seq<Keyword> := ["k"]

  function Greedy1(psi: real -> real): Rule {
    Strategy(Bids, Advertisers, Greedy, psi)
  }

  lemma ExampleShape(rem: real)
    ensures TableShape(Advertisers, map[0 := rem])
    ensures Covers(Bids, Advertisers)
  {
  }

  /** Greedy is sound for this market against any snapshot. */
  lemma ExampleSound(psi: real -> real, orig: Budgets)
    ensures Sound(Greedy1(psi), Bids, Advertisers, orig)
  {
    ExampleShape(0.0);
    StrategySound(Bids, Advertisers, Greedy, psi, orig);
  }

  /** One pass over ["k"] charges the bid of 1 when the budget covers it and earns nothing otherwise. */
  lemma ExamplePass(psi: real -> real, orig: Budgets, rem: real)
    ensures Sound(Greedy1(psi), Bids, Advertisers, orig)
    ensures PassReady(Bids, Advertisers, map[0 := rem], Queries)
    ensures Run(Bids, Advertisers, map[0 := rem], orig, Queries, Greedy1(psi))
         == if rem >= 1.0 then Pass(map[0 := rem - 1.0], 1.0) else Pass(map[0 := rem], 0.0)
  {
    ExampleSound(psi, orig);
    ExampleShape(rem);
    var start := map[0 := rem];
    assert Queries[..0] == [];
    var o := Greedy1(psi)(orig, start, "k");
    assert o == SelectGreedy([Bid(0, 1.0)], start);
    if rem >= 1.0 {
      assert Affords(start, Bid(0, 1.0));
      assert o.winner == Some(0) && o.charge == 1.0;
    } else {
      assert o.winner.None?;
    }
  }

  /** Every shuffle of a one-keyword list is that list. */
  lemma ShuffleOfOne(shuffle: (seq<Keyword>, nat) -> seq<Keyword>, t: nat)
    requires Shuffles(shuffle)
    ensures shuffle(Queries, t) == Queries
  {
    assert Rearranges(shuffle(Queries, t), Queries);
  }

  /** The state every pass leaves as written: budget 0, the list ["k"], revenue 1 in all. */
  const Spent: TrialState := TrialState(map[0 := 0.0], Queries, 1.0)

  /** As written, the first pass spends the whole budget and earns 1. */
  lemma FirstPassSpendsAll(psi: real -> real, shuffle: (seq<Keyword>, nat) -> seq<Keyword>, n: nat)
    requires Shuffles(shuffle) && n == 1
    ensures Trials(Bids, Advertisers, Loaded, Queries, Greedy1(psi), shuffle, n).Some?
    ensures Trials(Bids, Advertisers, Loaded, Queries, Greedy1(psi), shuffle, n).value == Spent
  {
    ShuffleOfOne(shuffle, 0);
    ExamplePass(psi, Loaded, 1.0);
    assert map[0 := 1.0] == Loaded;
    assert map[0 := 1.0 - 1.0] == map[0 := 0.0];
  }

  /** As written, a pass that starts from the spent budget earns nothing and changes nothing. */
  lemma SpentPassEarnsNothing(psi: real -> real, shuffle: (seq<Keyword>, nat) -> seq<Keyword>, n: nat)
    requires Shuffles(shuffle) && n >= 1
    requires Trials(Bids, Advertisers, Loaded, Queries, Greedy1(psi), shuffle, n - 1).Some?
    requires Trials(Bids, Advertisers, Loaded, Queries, Greedy1(psi), shuffle, n - 1).value == Spent
    ensures Trials(Bids, Advertisers, Loaded, Queries, Greedy1(psi), shuffle, n).Some?
    ensures Trials(Bids, Advertisers, Loaded, Queries, Greedy1(psi), shuffle, n).value == Spent
  {
    ShuffleOfOne(shuffle, n - 1);
    ExamplePass(psi, map[0 := 0.0], 0.0);
  }

  /** As written: after the first pass the budget is 0 and the passes earn 1 in all. */
  lemma {:induction false} NoResetEarnsOnce(psi: real -> real, shuffle: (seq<Keyword>, nat) -> seq<Keyword>, n: nat)
    requires Shuffles(shuffle) && n >= 1
    ensures Trials(Bids, Advertisers, Loaded, Queries, Greedy1(psi), shuffle, n).Some?
    ensures Trials(Bids, Advertisers, Loaded, Queries, Greedy1(psi), shuffle, n).value == Spent
  {
    if n == 1 {
      FirstPassSpendsAll(psi, shuffle, n);
    } else {
      NoResetEarnsOnce(psi, shuffle, n - 1);
      SpentPassEarnsNothing(psi, shuffle, n);
    }
  }

  /** With the reset: every pass starts from the loaded budget of 1 and earns 1. */
  lemma {:induction false} ResetEarnsEveryPass(psi: real -> real, shuffle: (seq<Keyword>, nat) -> seq<Keyword>, n: nat)
    requires Shuffles(shuffle)
    requires TrialsReady(Bids, Advertisers, Loaded, Queries, shuffle) && Sound(Greedy1(psi), Bids, Advertisers, Loaded)
    ensures TrialsWithReset(Bids, Advertisers, Loaded, Queries, Greedy1(psi), shuffle, n).queries == Queries
    ensures TrialsWithReset(Bids, Advertisers, Loaded, Queries, Greedy1(psi), shuffle, n).revenue == n as real
  {
    if n > 0 {
      ResetEarnsEveryPass(psi, shuffle, n - 1);
      ShuffleOfOne(shuffle, n - 1);
      ExamplePass(psi, Loaded, 1.0);
      assert map[0 := 1.0] == Loaded;
    }
  }

  /** The optimum main uses, the sum of the loaded budgets, is 1. */
  lemma ExampleOptimum()
    ensures Sum(Advertisers, Loaded) == 1.0
  {
    assert Advertisers[1..] == [];
  }

  /** As written, competitive_ratio returns 1/100 for this market. */
  lemma RatioWithoutReset(psi: real -> real, shuffle: (seq<Keyword>, nat) -> seq<Keyword>)
    requires Shuffles(shuffle)
    ensures Trials(Bids, Advertisers, Loaded, Queries, Greedy1(psi), shuffle, Permutations).Some?
    ensures Ratio(Trials(Bids, Advertisers, Loaded, Queries, Greedy1(psi), shuffle, Permutations).value.revenue, 1.0)
         == 1.0 / 100.0
  {
    NoResetEarnsOnce(psi, shuffle, Permutations);
  }

  /** With the budgets restored before every pass, the ratio for this market is 1. */
  lemma RatioWithReset(psi: real -> real, shuffle: (seq<Keyword>, nat) -> seq<Keyword>)
    requires Shuffles(shuffle)
    ensures TrialsReady(Bids, Advertisers, Loaded, Queries, shuffle) && Sound(Greedy1(psi), Bids, Advertisers, Loaded)
    ensures Ratio(TrialsWithReset(Bids, Advertisers, Loaded, Queries, Greedy1(psi), shuffle, Permutations).revenue, 1.0)
         == 1.0
  {
    ExampleShape(1.0);
    assert map[0 := 1.0] == Loaded;
    ExampleSound(psi, Loaded);
    ResetEarnsEveryPass(psi, shuffle, Permutations);
  }
}
