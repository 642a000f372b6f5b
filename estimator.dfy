/**
 * competitive_ratio of adwords.py: 100 passes of the allocator, each over a
 * fresh shuffle of the same query list, and the mean revenue of a pass divided
 * by the offline optimum.
 *
 * As written, the passes share one budget table and nothing restores it
 * between passes: each pass starts from what the previous one left. `Trials`
 * and `CompetitiveRatio` model that. `TrialsWithReset` and
 * `CompetitiveRatioWithReset` restore the budgets at entry before every pass,
 * which is what the ratio is meant to measure.
 *
 * random.seed(0) followed by random.shuffle is a pseudo-random generator whose
 * state after t shuffles of a list of fixed length depends only on t; it is a
 * parameter `shuffle(list, t)` here. The passes need only that it keeps the
 * length of the list and draws every entry from it (`Shuffles`), which every
 * permutation does (`PermutationRearranges`).
 */
module CompetitiveRatioEstimator {
  import opened Wrappers
  import opened BidderCatalog
  import opened MatchingStrategy
  import opened OnlineAllocator

  /** The number of shuffled passes. */
  const Permutations: nat := 100

  /** `shuffled` is as long as `qs` and every entry of it is an entry of `qs`. */
  predicate Rearranges(shuffled: seq<Keyword>, qs: seq<Keyword>) {
    |shuffled| == |qs| && forall i :: 0 <= i < |shuffled| ==> shuffled[i] in qs
  }

  /** A permutation of a list rearranges it. */
  lemma PermutationRearranges(shuffled: seq<Keyword>, qs: seq<Keyword>)
    requires multiset(shuffled) == multiset(qs)
    ensures Rearranges(shuffled, qs)
  {
    assert |multiset(shuffled)| == |multiset(qs)|;
    forall i | 0 <= i < |shuffled|
      ensures shuffled[i] in qs
    {
      assert shuffled[i] in multiset(shuffled);
    }
  }

  /** `shuffle(qs, t)`, the order of pass t, rearranges `qs`. */
  ghost predicate Shuffles(shuffle: (seq<Keyword>, nat) -> seq<Keyword>) {
    forall qs, t :: Rearranges(shuffle(qs, t), qs)
  }

  /** Every query keyword has bid rows. */
  predicate Known(catalog: Catalog, queries: seq<Keyword>) {
    forall q :: q in queries ==> q in catalog
  }

  /** What the passes need of the tables, the query list and the shuffle. */
  ghost predicate TrialsReady(catalog: Catalog, order: seq<Adv>, start: Budgets, queries: seq<Keyword>,
                              shuffle: (seq<Keyword>, nat) -> seq<Keyword>) {
    TableShape(order, start) && Known(catalog, queries) && Shuffles(shuffle)
  }

  /** A shuffled list holds the same keywords, as many of them. */
  lemma ShuffleKnown(catalog: Catalog, queries: seq<Keyword>, shuffle: (seq<Keyword>, nat) -> seq<Keyword>, t: nat)
    requires Known(catalog, queries) && Shuffles(shuffle)
    ensures Known(catalog, shuffle(queries, t)) && |shuffle(queries, t)| == |queries|
  {
    var qs := shuffle(queries, t);
    assert Rearranges(qs, queries);
  }

  lemma KnownReady(catalog: Catalog, order: seq<Adv>, start: Budgets, queries: seq<Keyword>)
    requires TableShape(order, start) && Known(catalog, queries)
    ensures PassReady(catalog, order, start, queries)
  {
    assert forall i :: 0 <= i < |queries| ==> queries[i] in queries;
  }

  /** The query list, the budget table and the summed revenue after some passes. */
  datatype TrialState = TrialState(remaining: Budgets, queries: seq<Keyword>, revenue: real)

  /**
   * The first `n` passes as written: pass t shuffles the list left by pass
   * t - 1 and runs from the budgets it left, which are also that pass's
   * snapshot. None once a pass leaves the model: a keyword without bid rows
   * (a KeyError in the source), or a rule that cannot run against that
   * snapshot (msvv with an advertiser whose snapshot budget is 0, whose
   * fraction spent is then 0/0, a NaN).
   */
  ghost function Trials(catalog: Catalog, order: seq<Adv>, start: Budgets, queries: seq<Keyword>, rule: Rule,
                        shuffle: (seq<Keyword>, nat) -> seq<Keyword>, n: nat): (r: Option<TrialState>)
    ensures r.Some? && TableShape(order, start) ==> TableShape(order, r.value.remaining)
  {
    if n == 0 then Some(TrialState(start, queries, 0.0))
    else
      match Trials(catalog, order, start, queries, rule, shuffle, n - 1)
      case None => None
      case Some(prev) =>
        var qs := shuffle(prev.queries, n - 1);
        if !PassReady(catalog, order, prev.remaining, qs) || !Sound(rule, catalog, order, prev.remaining) then None
        else
          var pass := Run(catalog, order, prev.remaining, prev.remaining, qs, rule);
          Some(TrialState(pass.remaining, qs, prev.revenue + pass.revenue))
  }

  /** One more pass, as written: shuffle the list the last pass left, run from the budgets it left. */
  lemma TrialsNext(catalog: Catalog, order: seq<Adv>, start: Budgets, queries: seq<Keyword>, rule: Rule,
                   shuffle: (seq<Keyword>, nat) -> seq<Keyword>, n: nat, s: TrialState)
    requires Trials(catalog, order, start, queries, rule, shuffle, n) == Some(s)
    requires Trials(catalog, order, start, queries, rule, shuffle, n + 1).Some?
    ensures Sound(rule, catalog, order, s.remaining)
    ensures PassReady(catalog, order, s.remaining, shuffle(s.queries, n))
    ensures var pass := Run(catalog, order, s.remaining, s.remaining, shuffle(s.queries, n), rule);
      Trials(catalog, order, start, queries, rule, shuffle, n + 1)
        == Some(TrialState(pass.remaining, shuffle(s.queries, n), s.revenue + pass.revenue))
  {
  }

  /** Pass n + 1 as the loop body meets it: the shuffled list, then the table and revenue one run leaves. */
  lemma TrialsAdvance(catalog: Catalog, order: seq<Adv>, start: Budgets, queries: seq<Keyword>, rule: Rule,
                      shuffle: (seq<Keyword>, nat) -> seq<Keyword>, n: nat, s: TrialState,
                      remaining: Budgets, shuffled: seq<Keyword>, revenue: real)
    requires Trials(catalog, order, start, queries, rule, shuffle, n) == Some(s)
    requires Trials(catalog, order, start, queries, rule, shuffle, n + 1).Some?
    requires shuffled == shuffle(s.queries, n)
    requires Sound(rule, catalog, order, s.remaining) && PassReady(catalog, order, s.remaining, shuffled)
    requires Pass(remaining, revenue) == Run(catalog, order, s.remaining, s.remaining, shuffled, rule)
    ensures Trials(catalog, order, start, queries, rule, shuffle, n + 1).value
         == TrialState(remaining, shuffled, s.revenue + revenue)
  {
    TrialsNext(catalog, order, start, queries, rule, shuffle, n, s);
  }

  /** If all passes could run, every shorter run of passes could too. */
  lemma {:induction false} TrialsPrefix(catalog: Catalog, order: seq<Adv>, start: Budgets, queries: seq<Keyword>,
                                        rule: Rule, shuffle: (seq<Keyword>, nat) -> seq<Keyword>, n: nat, m: nat)
    requires n <= m
    requires Trials(catalog, order, start, queries, rule, shuffle, m).Some?
    ensures Trials(catalog, order, start, queries, rule, shuffle, n).Some?
    decreases m - n
  {
    if n < m {
      TrialsPrefix(catalog, order, start, queries, rule, shuffle, n + 1, m);
    }
  }

  /** A rule that is sound against every budget table runs all passes, over known keywords. */
  lemma {:induction false} TrialsDefined(catalog: Catalog, order: seq<Adv>, start: Budgets, queries: seq<Keyword>,
                                         rule: Rule, shuffle: (seq<Keyword>, nat) -> seq<Keyword>, n: nat)
    requires TrialsReady(catalog, order, start, queries, shuffle)
    requires forall orig :: TableShape(order, orig) ==> Sound(rule, catalog, order, orig)
    ensures Trials(catalog, order, start, queries, rule, shuffle, n).Some?
    ensures var s := Trials(catalog, order, start, queries, rule, shuffle, n).value;
      TrialsReady(catalog, order, s.remaining, s.queries, shuffle)
  {
    if n > 0 {
      TrialsDefined(catalog, order, start, queries, rule, shuffle, n - 1);
      var prev := Trials(catalog, order, start, queries, rule, shuffle, n - 1).value;
      ShuffleKnown(catalog, prev.queries, shuffle, n - 1);
      KnownReady(catalog, order, prev.remaining, shuffle(prev.queries, n - 1));
      assert Sound(rule, catalog, order, prev.remaining);
    }
  }

  /** Greedy and balance never look at the snapshot: they run all passes. */
  lemma GreedyBalanceTrialsDefined(catalog: Catalog, order: seq<Adv>, start: Budgets, queries: seq<Keyword>,
                                   algo: Algo, psi: real -> real, shuffle: (seq<Keyword>, nat) -> seq<Keyword>)
    requires TrialsReady(catalog, order, start, queries, shuffle) && (algo == Greedy ==> Covers(catalog, order))
    requires algo != Msvv
    ensures Trials(catalog, order, start, queries, Strategy(catalog, order, algo, psi), shuffle, Permutations).Some?
  {
    forall orig | TableShape(order, orig)
      ensures Sound(Strategy(catalog, order, algo, psi), catalog, order, orig)
    {
      StrategySound(catalog, order, algo, psi, orig);
    }
    TrialsDefined(catalog, order, start, queries, Strategy(catalog, order, algo, psi), shuffle, Permutations);
  }

  /** The ratio competitive_ratio returns for the summed revenue of the passes. */
  function Ratio(total: real, optimal: real): (ratio: real)
    requires optimal != 0.0
    ensures ratio * (Permutations as real) * optimal == total
  {
    total / (Permutations as real) / optimal
  }

  /** Shuffles the query array in place, as random.shuffle does. */
  method ShuffleInPlace(queries: array<Keyword>, shuffle: (seq<Keyword>, nat) -> seq<Keyword>, t: nat)
    requires Shuffles(shuffle)
    modifies queries
    ensures queries[..] == shuffle(old(queries[..]), t)
  {
    var shuffled := shuffle(queries[..], t);
    assert Rearranges(shuffled, queries[..]);
    forall i | 0 <= i < queries.Length {
      queries[i] := shuffled[i];
    }
  }

  /** One pass of competitive_ratio: shuffle the query array in place, then allocate it against the table. */
  method ShuffleAndAllocate(catalog: Catalog, table: BudgetTable, queries: array<Keyword>, rule: Rule,
                            shuffle: (seq<Keyword>, nat) -> seq<Keyword>, t: nat)
    returns (revenue: real)
    requires table.Valid() && Shuffles(shuffle)
    requires PassReady(catalog, table.order, table.remaining, shuffle(queries[..], t))
    requires Sound(rule, catalog, table.order, table.remaining)
    modifies table, queries
    ensures table.Valid()
    ensures queries[..] == shuffle(old(queries[..]), t)
    ensures Pass(table.remaining, revenue)
         == Run(catalog, table.order, old(table.remaining), old(table.remaining), queries[..], rule)
  {
    ShuffleInPlace(queries, shuffle, t);
    revenue := Allocate(catalog, table, queries[..], rule);
  }

  /**
   * The loop of competitive_ratio for any rule: 100 passes, each shuffling
   * the query array in place and running the allocator on the shared budget
   * table; returns the mean revenue divided by `optimal`.
   */
  method Estimate(catalog: Catalog, table: BudgetTable, queries: array<Keyword>, rule: Rule,
                  optimal: real, shuffle: (seq<Keyword>, nat) -> seq<Keyword>)
    returns (ratio: real)
    requires table.Valid()
    requires Shuffles(shuffle)
    requires optimal != 0.0
    requires Trials(catalog, table.order, table.remaining, queries[..], rule, shuffle, Permutations).Some?
    modifies table, queries
    ensures table.Valid()
    ensures var t := Trials(catalog, table.order, old(table.remaining), old(queries[..]), rule, shuffle, Permutations).value;
      table.remaining == t.remaining && queries[..] == t.queries && ratio == Ratio(t.revenue, optimal)
  {
    ghost var entry := table.remaining;
    ghost var given := queries[..];
    var total := 0.0;
    for t := 0 to Permutations
      invariant table.Valid()
      invariant Trials(catalog, table.order, entry, given, rule, shuffle, t).Some?
      invariant Trials(catalog, table.order, entry, given, rule, shuffle, t).value
             == TrialState(table.remaining, queries[..], total)
    {
      TrialsPrefix(catalog, table.order, entry, given, rule, shuffle, t + 1, Permutations);
      ghost var before := Trials(catalog, table.order, entry, given, rule, shuffle, t).value;
      TrialsNext(catalog, table.order, entry, given, rule, shuffle, t, before);
      var revenue := ShuffleAndAllocate(catalog, table, queries, rule, shuffle, t);
      TrialsAdvance(catalog, table.order, entry, given, rule, shuffle, t, before,
                    table.remaining, queries[..], revenue);
      total := total + revenue;
    }
    ratio := Ratio(total, optimal);
  }

  /** competitive_ratio with the strategy `algo`. */
  method CompetitiveRatio(catalog: Catalog, table: BudgetTable, queries: array<Keyword>, algo: Algo,
                          optimal: real, psi: real -> real, shuffle: (seq<Keyword>, nat) -> seq<Keyword>)
    returns (ratio: real)
    requires table.Valid()
    requires Shuffles(shuffle)
    requires optimal != 0.0
    requires Trials(catalog, table.order, table.remaining, queries[..],
                    Strategy(catalog, table.order, algo, psi), shuffle, Permutations).Some?
    modifies table, queries
    ensures table.Valid()
    ensures var t := Trials(catalog, table.order, old(table.remaining), old(queries[..]),
                            Strategy(catalog, table.order, algo, psi), shuffle, Permutations).value;
      table.remaining == t.remaining && queries[..] == t.queries && ratio == Ratio(t.revenue, optimal)
  {
    ratio := Estimate(catalog, table, queries, Strategy(catalog, table.order, algo, psi), optimal, shuffle);
  }

  /** Revenue summed over the passes plus what the table holds at the end is the table at entry. */
  lemma {:induction false} TrialsConservation(catalog: Catalog, order: seq<Adv>, start: Budgets, queries: seq<Keyword>,
                                              rule: Rule, shuffle: (seq<Keyword>, nat) -> seq<Keyword>, n: nat)
    requires TableShape(order, start)
    requires Trials(catalog, order, start, queries, rule, shuffle, n).Some?
    ensures Trials(catalog, order, start, queries, rule, shuffle, n).value.revenue
          + Sum(order, Trials(catalog, order, start, queries, rule, shuffle, n).value.remaining)
         == Sum(order, start)
  {
    if n > 0 {
      TrialsPrefix(catalog, order, start, queries, rule, shuffle, n - 1, n);
      var prev := Trials(catalog, order, start, queries, rule, shuffle, n - 1).value;
      TrialsConservation(catalog, order, start, queries, rule, shuffle, n - 1);
      TrialsNext(catalog, order, start, queries, rule, shuffle, n - 1, prev);
      RevenueConservation(catalog, order, prev.remaining, prev.remaining, shuffle(prev.queries, n - 1), rule);
    }
  }

  /** With non-negative budgets at entry, the budgets stay non-negative across the passes. */
  lemma {:induction false} TrialsNonNegative(catalog: Catalog, order: seq<Adv>, start: Budgets, queries: seq<Keyword>,
                                             rule: Rule, shuffle: (seq<Keyword>, nat) -> seq<Keyword>, n: nat)
    requires TableShape(order, start)
    requires forall a :: a in start ==> start[a] >= 0.0
    requires Trials(catalog, order, start, queries, rule, shuffle, n).Some?
    ensures forall a :: a in Trials(catalog, order, start, queries, rule, shuffle, n).value.remaining ==>
      Trials(catalog, order, start, queries, rule, shuffle, n).value.remaining[a] >= 0.0
  {
    if n > 0 {
      TrialsPrefix(catalog, order, start, queries, rule, shuffle, n - 1, n);
      var prev := Trials(catalog, order, start, queries, rule, shuffle, n - 1).value;
      TrialsNonNegative(catalog, order, start, queries, rule, shuffle, n - 1);
      TrialsNext(catalog, order, start, queries, rule, shuffle, n - 1, prev);
      BudgetsNonNegative(catalog, order, prev.remaining, prev.remaining, shuffle(prev.queries, n - 1), rule);
    }
  }

  /** With non-negative bids and budgets at entry, the revenue summed over the passes is never negative. */
  lemma {:induction false} TrialsRevenueNonNegative(catalog: Catalog, order: seq<Adv>, start: Budgets,
                                                    queries: seq<Keyword>, rule: Rule,
                                                    shuffle: (seq<Keyword>, nat) -> seq<Keyword>, n: nat)
    requires TableShape(order, start) && NonNegativeBids(catalog)
    requires forall a :: a in start ==> start[a] >= 0.0
    requires Trials(catalog, order, start, queries, rule, shuffle, n).Some?
    ensures Trials(catalog, order, start, queries, rule, shuffle, n).value.revenue >= 0.0
  {
    if n > 0 {
      TrialsPrefix(catalog, order, start, queries, rule, shuffle, n - 1, n);
      var prev := Trials(catalog, order, start, queries, rule, shuffle, n - 1).value;
      TrialsRevenueNonNegative(catalog, order, start, queries, rule, shuffle, n - 1);
      TrialsNonNegative(catalog, order, start, queries, rule, shuffle, n - 1);
      TrialsNext(catalog, order, start, queries, rule, shuffle, n - 1, prev);
      RevenueBounds(catalog, order, prev.remaining, prev.remaining, shuffle(prev.queries, n - 1), rule);
    }
  }

  /**
   * Without a reset, all 100 passes together earn at most the budgets the
   * table held at entry, so against an optimum of at least those budgets the
   * ratio is at most 1/100; with non-negative bids it is at least 0.
   */
  lemma NoResetRatioAtMostOnePercent(catalog: Catalog, order: seq<Adv>, start: Budgets, queries: seq<Keyword>,
                                     rule: Rule, shuffle: (seq<Keyword>, nat) -> seq<Keyword>, optimal: real)
    requires TableShape(order, start)
    requires forall a :: a in start ==> start[a] >= 0.0
    requires Trials(catalog, order, start, queries, rule, shuffle, Permutations).Some?
    requires optimal > 0.0 && optimal >= Sum(order, start)
    ensures Ratio(Trials(catalog, order, start, queries, rule, shuffle, Permutations).value.revenue, optimal)
         <= 1.0 / (Permutations as real)
    ensures NonNegativeBids(catalog) ==>
      0.0 <= Ratio(Trials(catalog, order, start, queries, rule, shuffle, Permutations).value.revenue, optimal)
  {
    var t := Trials(catalog, order, start, queries, rule, shuffle, Permutations).value;
    if NonNegativeBids(catalog) {
      TrialsRevenueNonNegative(catalog, order, start, queries, rule, shuffle, Permutations);
      RatioNonNegative(t.revenue, optimal);
    }
    TrialsConservation(catalog, order, start, queries, rule, shuffle, Permutations);
    TrialsNonNegative(catalog, order, start, queries, rule, shuffle, Permutations);
    SumNonNegative(order, t.remaining);
    assert t.revenue <= optimal;
    RatioBound(t.revenue, optimal, 1.0);
  }

  /** A non-negative summed revenue against a positive optimum gives a non-negative ratio. */
  lemma RatioNonNegative(total: real, optimal: real)
    requires optimal > 0.0 && total >= 0.0
    ensures Ratio(total, optimal) >= 0.0
  {
  }

  /** A summed revenue of at most `share` times the optimum gives a ratio of at most `share` / 100. */
  lemma RatioBound(total: real, optimal: real, share: real)
    requires optimal > 0.0 && total <= share * optimal
    ensures Ratio(total, optimal) <= share / (Permutations as real)
  {
    var r := Ratio(total, optimal);
    assert r * optimal * 100.0 <= share * optimal;
    assert r * 100.0 <= share;
  }

  // ------------------------------------------------------- with a reset

  /**
   * The first `n` passes with the table restored to `start` before each:
   * every pass runs from, and measures spending against, the budgets at entry;
   * `remaining` is what the last pass left.
   */
  ghost function TrialsWithReset(catalog: Catalog, order: seq<Adv>, start: Budgets, queries: seq<Keyword>,
                                 rule: Rule, shuffle: (seq<Keyword>, nat) -> seq<Keyword>, n: nat): (r: TrialState)
    requires TrialsReady(catalog, order, start, queries, shuffle) && Sound(rule, catalog, order, start)
    ensures Known(catalog, r.queries)
    ensures TableShape(order, r.remaining) && r.remaining.Keys == start.Keys
  {
    if n == 0 then TrialState(start, queries, 0.0)
    else
      var prev := TrialsWithReset(catalog, order, start, queries, rule, shuffle, n - 1);
      var qs := shuffle(prev.queries, n - 1);
      ShuffleKnown(catalog, prev.queries, shuffle, n - 1);
      KnownReady(catalog, order, start, qs);
      var pass := Run(catalog, order, start, start, qs, rule);
      TrialState(pass.remaining, qs, prev.revenue + pass.revenue)
  }

  /** One more pass with a reset: shuffle the list the last pass left, run from the budgets at entry. */
  lemma ResetNext(catalog: Catalog, order: seq<Adv>, start: Budgets, queries: seq<Keyword>, rule: Rule,
                  shuffle: (seq<Keyword>, nat) -> seq<Keyword>, n: nat)
    requires TrialsReady(catalog, order, start, queries, shuffle) && Sound(rule, catalog, order, start)
    ensures var s := TrialsWithReset(catalog, order, start, queries, rule, shuffle, n);
      && PassReady(catalog, order, start, shuffle(s.queries, n))
      && |shuffle(s.queries, n)| == |s.queries|
      && var pass := Run(catalog, order, start, start, shuffle(s.queries, n), rule);
         TrialsWithReset(catalog, order, start, queries, rule, shuffle, n + 1)
           == TrialState(pass.remaining, shuffle(s.queries, n), s.revenue + pass.revenue)
  {
    var s := TrialsWithReset(catalog, order, start, queries, rule, shuffle, n);
    ShuffleKnown(catalog, s.queries, shuffle, n);
    KnownReady(catalog, order, start, shuffle(s.queries, n));
  }

  /** The loop of competitive_ratio for any rule, restoring the budgets at entry before every pass. */
  method EstimateWithReset(catalog: Catalog, table: BudgetTable, queries: array<Keyword>, rule: Rule,
                           optimal: real, shuffle: (seq<Keyword>, nat) -> seq<Keyword>)
    returns (ratio: real)
    requires table.Valid()
    requires TrialsReady(catalog, table.order, table.remaining, queries[..], shuffle)
    requires Sound(rule, catalog, table.order, table.remaining)
    requires optimal != 0.0
    modifies table, queries
    ensures table.Valid()
    ensures var t := TrialsWithReset(catalog, table.order, old(table.remaining), old(queries[..]), rule, shuffle, Permutations);
      table.remaining == t.remaining && queries[..] == t.queries && ratio == Ratio(t.revenue, optimal)
  {
    var entry := table.remaining;
    ghost var given := queries[..];
    var total := 0.0;
    for t := 0 to Permutations
      invariant table.Valid()
      invariant TrialsWithReset(catalog, table.order, entry, given, rule, shuffle, t)
             == TrialState(table.remaining, queries[..], total)
    {
      ResetNext(catalog, table.order, entry, given, rule, shuffle, t);
      ShuffleInPlace(queries, shuffle, t);
      table.Restore(entry);
      var revenue := Allocate(catalog, table, queries[..], rule);
      total := total + revenue;
    }
    ratio := Ratio(total, optimal);
  }

  /** competitive_ratio with the strategy `algo`, restoring the budgets at entry before every pass. */
  method CompetitiveRatioWithReset(catalog: Catalog, table: BudgetTable, queries: array<Keyword>, algo: Algo,
                                   optimal: real, psi: real -> real, shuffle: (seq<Keyword>, nat) -> seq<Keyword>)
    returns (ratio: real)
    requires table.Valid() && (algo == Greedy ==> Covers(catalog, table.order))
    requires TrialsReady(catalog, table.order, table.remaining, queries[..], shuffle)
    requires algo == Msvv ==>
      SnapshotNonZero(table.order, table.remaining) && forall k :: k in catalog ==> UniqueBidders(catalog[k])
    requires optimal != 0.0
    modifies table, queries
    ensures table.Valid()
    ensures var t := TrialsWithReset(catalog, table.order, old(table.remaining), old(queries[..]),
                                     Strategy(catalog, table.order, algo, psi), shuffle, Permutations);
      table.remaining == t.remaining && queries[..] == t.queries && ratio == Ratio(t.revenue, optimal)
  {
    StrategySound(catalog, table.order, algo, psi, table.remaining);
    ratio := EstimateWithReset(catalog, table, queries, Strategy(catalog, table.order, algo, psi), optimal, shuffle);
  }

  /** `n` times `b`, added up pass by pass. */
  function Times(n: nat, b: real): real {
    if n == 0 then 0.0 else Times(n - 1, b) + b
  }

  lemma {:induction false} TimesIsProduct(n: nat, b: real)
    ensures Times(n, b) == (n as real) * b
  {
    if n > 0 {
      TimesIsProduct(n - 1, b);
    }
  }

  /** With a reset, every pass earns between nothing and the budgets at entry. */
  lemma {:induction false} ResetRevenueBounds(catalog: Catalog, order: seq<Adv>, start: Budgets, queries: seq<Keyword>,
                                              rule: Rule, shuffle: (seq<Keyword>, nat) -> seq<Keyword>, n: nat)
    requires TrialsReady(catalog, order, start, queries, shuffle) && Sound(rule, catalog, order, start)
    requires NonNegativeBids(catalog)
    requires forall a :: a in start ==> start[a] >= 0.0
    ensures 0.0 <= TrialsWithReset(catalog, order, start, queries, rule, shuffle, n).revenue
                <= Times(n, Sum(order, start))
  {
    if n > 0 {
      var prev := TrialsWithReset(catalog, order, start, queries, rule, shuffle, n - 1);
      ResetRevenueBounds(catalog, order, start, queries, rule, shuffle, n - 1);
      ResetNext(catalog, order, start, queries, rule, shuffle, n - 1);
      RevenueBounds(catalog, order, start, start, shuffle(prev.queries, n - 1), rule);
    }
  }

  /** With a reset and the budgets at entry as the optimum, the ratio lies in [0, 1]. */
  lemma ResetRatioBounds(catalog: Catalog, order: seq<Adv>, start: Budgets, queries: seq<Keyword>,
                         rule: Rule, shuffle: (seq<Keyword>, nat) -> seq<Keyword>)
    requires TrialsReady(catalog, order, start, queries, shuffle) && Sound(rule, catalog, order, start)
    requires NonNegativeBids(catalog)
    requires forall a :: a in start ==> start[a] >= 0.0
    requires Sum(order, start) > 0.0
    ensures 0.0 <= Ratio(TrialsWithReset(catalog, order, start, queries, rule, shuffle, Permutations).revenue,
                         Sum(order, start)) <= 1.0
  {
    var total := TrialsWithReset(catalog, order, start, queries, rule, shuffle, Permutations).revenue;
    ResetRevenueBounds(catalog, order, start, queries, rule, shuffle, Permutations);
    TimesIsProduct(Permutations, Sum(order, start));
    RatioBound(total, Sum(order, start), Permutations as real);
  }
}
