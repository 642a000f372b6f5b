/**
 * The allocation loop of adwords.py: every query, in order, goes to the
 * strategy; the winner's budget drops by the charge, in place, and the charge
 * is added to the revenue.
 *
 * The loop itself does not depend on which strategy runs: it only asks the
 * strategy for an outcome and settles it. A strategy is therefore a `Rule`
 * here, a function from (call-start snapshot, live budgets, keyword) to an
 * outcome, and `Strategy` builds the rule for greedy, balance or msvv. What
 * the loop relies on is that a rule is `Sound`: its winner bid on the keyword
 * and could afford the charge.
 */
module OnlineAllocator {
  import opened Wrappers
  import opened BidderCatalog
  import opened MatchingStrategy

  /** A strategy as the loop calls it: snapshot, live budgets and keyword in, outcome out. */
  type Rule = (Budgets, Budgets, Keyword) --> Outcome

  /** The budget table and the revenue after a prefix of the queries. */
  datatype Pass = Pass(remaining: Budgets, revenue: real)

  /** What every strategy promises: no winner means no charge; a winner bid exactly the charge and can pay it. */
  ghost predicate Fits(bids: seq<Bid>, remaining: Budgets, o: Outcome) {
    && (o.winner.None? ==> o.charge == 0.0)
    && (o.winner.Some? ==>
          Bid(o.winner.value, o.charge) in bids && o.winner.value in remaining
          && remaining[o.winner.value] >= o.charge)
  }

  /** `rule`, run against the snapshot `orig`, answers every query keyword on every budget table. */
  ghost predicate Sound(rule: Rule, catalog: Catalog, order: seq<Adv>, orig: Budgets) {
    forall remaining, q :: TableShape(order, remaining) && q in catalog ==>
      rule.requires(orig, remaining, q) && Fits(catalog[q], remaining, rule(orig, remaining, q))
  }

  /** What the strategy for `algo` needs of the tables for query `q`. */
  ghost predicate StepReady(catalog: Catalog, order: seq<Adv>, remaining: Budgets, orig: Budgets,
                            q: Keyword, algo: Algo) {
    && TableShape(order, remaining)
    && (algo == Greedy ==> Covers(catalog, order))
    && q in catalog
    && (algo == Msvv ==> SnapshotNonZero(order, orig) && UniqueBidders(catalog[q]))
  }

  /** The outcome of the strategy `algo` for query `q`: the bid rows of `q` (its interested bidders) go to Select. */
  function Decide(catalog: Catalog, order: seq<Adv>, remaining: Budgets, orig: Budgets,
                  q: Keyword, algo: Algo, psi: real -> real): (o: Outcome)
    requires StepReady(catalog, order, remaining, orig, q, algo)
    ensures Fits(catalog[q], remaining, o)
  {
    ListedMembers(order, remaining);
    Select(algo, catalog[q], order, remaining, orig, psi)
  }

  /** The strategy `algo` as the rule the loop calls: `Decide` for every query. */
  function Strategy(catalog: Catalog, order: seq<Adv>, algo: Algo, psi: real -> real): Rule {
    (orig: Budgets, remaining: Budgets, q: Keyword) requires StepReady(catalog, order, remaining, orig, q, algo) =>
      Decide(catalog, order, remaining, orig, q, algo, psi)
  }

  /**
   * The three strategies are sound whenever, for greedy, the bid table names
   * only advertisers of the budget table and, for msvv, the snapshot has no
   * zero budget and no keyword lists an advertiser twice.
   */
  lemma StrategySound(catalog: Catalog, order: seq<Adv>, algo: Algo, psi: real -> real, orig: Budgets)
    requires algo == Greedy ==> Covers(catalog, order)
    requires algo == Msvv ==> SnapshotNonZero(order, orig) && forall k :: k in catalog ==> UniqueBidders(catalog[k])
    ensures Sound(Strategy(catalog, order, algo, psi), catalog, order, orig)
  {
    var rule := Strategy(catalog, order, algo, psi);
    forall remaining, q | TableShape(order, remaining) && q in catalog
      ensures rule.requires(orig, remaining, q) && Fits(catalog[q], remaining, rule(orig, remaining, q))
    {
      assert StepReady(catalog, order, remaining, orig, q, algo);
    }
  }

  /** Every query keyword of the list has bid rows and the budgets form a budget table. */
  ghost predicate PassReady(catalog: Catalog, order: seq<Adv>, start: Budgets, queries: seq<Keyword>) {
    TableShape(order, start) && forall i :: 0 <= i < |queries| ==> queries[i] in catalog
  }

  /** The winner, if any, pays its charge out of its budget. */
  function Settle(remaining: Budgets, o: Outcome): Budgets
    requires o.winner.Some? ==> o.winner.value in remaining
  {
    match o.winner
    case None => remaining
    case Some(w) => remaining[w := remaining[w] - o.charge]
  }

  /** One query of the loop: ask the rule, charge the winner, add the charge to the revenue. */
  function Step(catalog: Catalog, order: seq<Adv>, prev: Pass, orig: Budgets, q: Keyword, rule: Rule): (next: Pass)
    requires TableShape(order, prev.remaining) && q in catalog && Sound(rule, catalog, order, orig)
    ensures TableShape(order, next.remaining) && next.remaining.Keys == prev.remaining.Keys
  {
    var o := rule(orig, prev.remaining, q);
    Pass(Settle(prev.remaining, o), prev.revenue + o.charge)
  }

  /**
   * The budgets and revenue after the queries, in order, starting from the
   * budgets `start`; `orig` is the snapshot the rule measures spending against.
   */
  function Run(catalog: Catalog, order: seq<Adv>, start: Budgets, orig: Budgets, queries: seq<Keyword>,
               rule: Rule): (r: Pass)
    requires PassReady(catalog, order, start, queries) && Sound(rule, catalog, order, orig)
    ensures TableShape(order, r.remaining) && r.remaining.Keys == start.Keys
    decreases |queries|
  {
    if queries == [] then Pass(start, 0.0)
    else
      var n := |queries| - 1;
      var prev := Run(catalog, order, start, orig, queries[..n], rule);
      Step(catalog, order, prev, orig, queries[n], rule)
  }

  /**
   * One query: only the winner's budget changes, it drops by exactly the
   * charge and stays non-negative, and the charge is the revenue earned;
   * without a winner nothing changes and nothing is earned.
   */
  lemma StepFrame(catalog: Catalog, order: seq<Adv>, prev: Pass, orig: Budgets, q: Keyword, rule: Rule)
    requires TableShape(order, prev.remaining) && q in catalog && Sound(rule, catalog, order, orig)
    ensures
      var o := rule(orig, prev.remaining, q);
      var next := Step(catalog, order, prev, orig, q, rule);
      && next.revenue == prev.revenue + o.charge
      && (forall a :: a in prev.remaining && o.winner != Some(a) ==> next.remaining[a] == prev.remaining[a])
      && (o.winner.Some? ==>
            next.remaining[o.winner.value] == prev.remaining[o.winner.value] - o.charge >= 0.0)
      && (o.winner.None? ==> next == prev)
  {
  }

  /** One query moves exactly its charge from the budgets to the revenue. */
  lemma StepConservation(catalog: Catalog, order: seq<Adv>, prev: Pass, orig: Budgets, q: Keyword, rule: Rule)
    requires TableShape(order, prev.remaining) && q in catalog && Sound(rule, catalog, order, orig)
    ensures var next := Step(catalog, order, prev, orig, q, rule);
      next.revenue + Sum(order, next.remaining) == prev.revenue + Sum(order, prev.remaining)
  {
    var o := rule(orig, prev.remaining, q);
    if o.winner.Some? {
      var w := o.winner.value;
      SumUpdate(order, prev.remaining, w, prev.remaining[w] - o.charge);
    }
  }

  /** One query never lowers a budget below zero, and with non-negative bids never raises one. */
  lemma StepBounds(catalog: Catalog, order: seq<Adv>, prev: Pass, orig: Budgets, q: Keyword, rule: Rule)
    requires TableShape(order, prev.remaining) && q in catalog && Sound(rule, catalog, order, orig)
    ensures var next := Step(catalog, order, prev, orig, q, rule);
      forall a :: a in prev.remaining ==>
        && (prev.remaining[a] >= 0.0 ==> next.remaining[a] >= 0.0)
        && (NonNegativeBids(catalog) ==> next.remaining[a] <= prev.remaining[a])
  {
    StepFrame(catalog, order, prev, orig, q, rule);
  }

  /** A step settles what the rule returns and adds its charge to the revenue. */
  lemma StepSettles(catalog: Catalog, order: seq<Adv>, prev: Pass, orig: Budgets, q: Keyword, rule: Rule)
    requires TableShape(order, prev.remaining) && q in catalog && Sound(rule, catalog, order, orig)
    ensures var o := rule(orig, prev.remaining, q);
      && (o.winner.Some? ==> o.winner.value in prev.remaining)
      && Step(catalog, order, prev, orig, q, rule).remaining == Settle(prev.remaining, o)
      && Step(catalog, order, prev, orig, q, rule).revenue == prev.revenue + o.charge
  {
  }

  lemma PrefixReady(catalog: Catalog, order: seq<Adv>, start: Budgets, queries: seq<Keyword>, j: nat)
    requires PassReady(catalog, order, start, queries)
    requires j <= |queries|
    ensures PassReady(catalog, order, start, queries[..j])
  {
    assert forall i :: 0 <= i < j ==> queries[..j][i] == queries[i];
  }

  /** Running one more query is one more step. */
  lemma RunExtend(catalog: Catalog, order: seq<Adv>, start: Budgets, orig: Budgets, queries: seq<Keyword>,
                  rule: Rule, i: nat)
    requires PassReady(catalog, order, start, queries) && Sound(rule, catalog, order, orig)
    requires i < |queries|
    ensures PassReady(catalog, order, start, queries[..i])
    ensures PassReady(catalog, order, start, queries[..i + 1])
    ensures Run(catalog, order, start, orig, queries[..i + 1], rule)
         == Step(catalog, order, Run(catalog, order, start, orig, queries[..i], rule), orig, queries[i], rule)
  {
    PrefixReady(catalog, order, start, queries, i);
    PrefixReady(catalog, order, start, queries, i + 1);
    assert queries[..i + 1][..i] == queries[..i];
  }

  /** The loop body of adwords as the run sees it: query i settles its outcome on the budgets so far. */
  lemma RunSettles(catalog: Catalog, order: seq<Adv>, orig: Budgets, queries: seq<Keyword>, rule: Rule, i: nat,
                   remaining: Budgets, revenue: real)
    requires PassReady(catalog, order, orig, queries) && Sound(rule, catalog, order, orig)
    requires i < |queries|
    requires PassReady(catalog, order, orig, queries[..i])
    requires remaining == Run(catalog, order, orig, orig, queries[..i], rule).remaining
    requires revenue == Run(catalog, order, orig, orig, queries[..i], rule).revenue
    ensures var o := rule(orig, remaining, queries[i]);
      && (o.winner.Some? ==> o.winner.value in remaining)
      && PassReady(catalog, order, orig, queries[..i + 1])
      && Settle(remaining, o) == Run(catalog, order, orig, orig, queries[..i + 1], rule).remaining
      && revenue + o.charge == Run(catalog, order, orig, orig, queries[..i + 1], rule).revenue
  {
    RunExtend(catalog, order, orig, orig, queries, rule, i);
    var before := Run(catalog, order, orig, orig, queries[..i], rule);
    StepSettles(catalog, order, before, orig, queries[i], rule);
  }

  /** Budgets never drop below zero when they start at or above it. */
  lemma {:induction false} BudgetsNonNegative(catalog: Catalog, order: seq<Adv>, start: Budgets, orig: Budgets,
                                              queries: seq<Keyword>, rule: Rule)
    requires PassReady(catalog, order, start, queries) && Sound(rule, catalog, order, orig)
    requires forall a :: a in start ==> start[a] >= 0.0
    ensures forall a :: a in Run(catalog, order, start, orig, queries, rule).remaining ==>
      Run(catalog, order, start, orig, queries, rule).remaining[a] >= 0.0
  {
    if queries != [] {
      var n := |queries| - 1;
      PrefixReady(catalog, order, start, queries, n);
      BudgetsNonNegative(catalog, order, start, orig, queries[..n], rule);
      StepBounds(catalog, order, Run(catalog, order, start, orig, queries[..n], rule), orig, queries[n], rule);
    }
  }

  /** With non-negative bids no budget ever grows: a later prefix leaves at most what an earlier one did. */
  lemma {:induction false} BudgetsNonIncreasing(catalog: Catalog, order: seq<Adv>, start: Budgets, orig: Budgets,
                                                queries: seq<Keyword>, rule: Rule, j: nat)
    requires PassReady(catalog, order, start, queries) && Sound(rule, catalog, order, orig)
    requires NonNegativeBids(catalog)
    requires j <= |queries|
    ensures PassReady(catalog, order, start, queries[..j])
    ensures forall a :: a in start ==>
      Run(catalog, order, start, orig, queries, rule).remaining[a]
        <= Run(catalog, order, start, orig, queries[..j], rule).remaining[a]
  {
    PrefixReady(catalog, order, start, queries, j);
    if j < |queries| {
      var n := |queries| - 1;
      PrefixReady(catalog, order, start, queries, n);
      assert queries[..n][..j] == queries[..j];
      BudgetsNonIncreasing(catalog, order, start, orig, queries[..n], rule, j);
      StepBounds(catalog, order, Run(catalog, order, start, orig, queries[..n], rule), orig, queries[n], rule);
    } else {
      assert queries[..j] == queries;
    }
  }

  /** Revenue plus what is left of the budgets is what the budgets held at the start. */
  lemma {:induction false} RevenueConservation(catalog: Catalog, order: seq<Adv>, start: Budgets, orig: Budgets,
                                               queries: seq<Keyword>, rule: Rule)
    requires PassReady(catalog, order, start, queries) && Sound(rule, catalog, order, orig)
    ensures Run(catalog, order, start, orig, queries, rule).revenue
          + Sum(order, Run(catalog, order, start, orig, queries, rule).remaining)
         == Sum(order, start)
  {
    if queries != [] {
      var n := |queries| - 1;
      PrefixReady(catalog, order, start, queries, n);
      RevenueConservation(catalog, order, start, orig, queries[..n], rule);
      StepConservation(catalog, order, Run(catalog, order, start, orig, queries[..n], rule), orig, queries[n], rule);
    }
  }

  lemma {:induction false} SumMonotone(order: seq<Adv>, low: Budgets, high: Budgets)
    requires Listed(order, low) && Listed(order, high)
    requires forall i :: 0 <= i < |order| ==> low[order[i]] <= high[order[i]]
    ensures Sum(order, low) <= Sum(order, high)
  {
    if order != [] {
      SumMonotone(order[1..], low, high);
    }
  }

  /** The revenue of a pass is never negative and never exceeds the budgets it started with. */
  lemma RevenueBounds(catalog: Catalog, order: seq<Adv>, start: Budgets, orig: Budgets,
                      queries: seq<Keyword>, rule: Rule)
    requires PassReady(catalog, order, start, queries) && Sound(rule, catalog, order, orig)
    requires NonNegativeBids(catalog)
    requires forall a :: a in start ==> start[a] >= 0.0
    ensures 0.0 <= Run(catalog, order, start, orig, queries, rule).revenue <= Sum(order, start)
  {
    var r := Run(catalog, order, start, orig, queries, rule);
    RevenueConservation(catalog, order, start, orig, queries, rule);
    BudgetsNonNegative(catalog, order, start, orig, queries, rule);
    BudgetsNonIncreasing(catalog, order, start, orig, queries, rule, 0);
    assert queries[..0] == [];
    SumNonNegative(order, r.remaining);
    SumMonotone(order, r.remaining, start);
  }

  /**
   * Revenue adds up: running `first` and then `second` from where `first`
   * left the budgets is running `first + second`, with the two revenues summed.
   */
  lemma {:induction false} RunAppend(catalog: Catalog, order: seq<Adv>, start: Budgets, orig: Budgets,
                                     first: seq<Keyword>, second: seq<Keyword>, rule: Rule)
    requires PassReady(catalog, order, start, first + second) && Sound(rule, catalog, order, orig)
    ensures PassReady(catalog, order, start, first)
    ensures PassReady(catalog, order, Run(catalog, order, start, orig, first, rule).remaining, second)
    ensures var mid := Run(catalog, order, start, orig, first, rule);
      var rest := Run(catalog, order, mid.remaining, orig, second, rule);
      var whole := Run(catalog, order, start, orig, first + second, rule);
      whole.remaining == rest.remaining && whole.revenue == mid.revenue + rest.revenue
    decreases |second|
  {
    assert forall i :: 0 <= i < |first| ==> first[i] == (first + second)[i];
    assert forall i :: 0 <= i < |second| ==> second[i] == (first + second)[|first| + i];
    if second == [] {
      assert first + second == first;
    } else {
      var whole := first + second;
      var n := |second| - 1;
      assert whole[..|whole| - 1] == first + second[..n];
      assert whole[|whole| - 1] == second[n];
      RunAppend(catalog, order, start, orig, first, second[..n], rule);
      var mid := Run(catalog, order, start, orig, first, rule);
      PrefixReady(catalog, order, mid.remaining, second, n);
      var rest := Run(catalog, order, mid.remaining, orig, second[..n], rule);
      var before := Run(catalog, order, start, orig, first + second[..n], rule);
      assert before == Pass(rest.remaining, mid.revenue + rest.revenue);
      assert Run(catalog, order, start, orig, whole, rule) == Step(catalog, order, before, orig, second[n], rule);
      assert Run(catalog, order, mid.remaining, orig, second, rule) == Step(catalog, order, rest, orig, second[n], rule);
      StepShift(catalog, order, rest.remaining, mid.revenue, rest.revenue, orig, second[n], rule);
    }
  }

  /** What a step earns and leaves does not depend on the revenue it starts with. */
  lemma StepShift(catalog: Catalog, order: seq<Adv>, remaining: Budgets, earlier: real, revenue: real,
                  orig: Budgets, q: Keyword, rule: Rule)
    requires TableShape(order, remaining) && q in catalog && Sound(rule, catalog, order, orig)
    ensures var next := Step(catalog, order, Pass(remaining, revenue), orig, q, rule);
      var shifted := Step(catalog, order, Pass(remaining, earlier + revenue), orig, q, rule);
      shifted.remaining == next.remaining && shifted.revenue == earlier + next.revenue
  {
  }

  /**
   * The loop of adwords for any sound rule: the snapshot is the table as the
   * call finds it; the table is updated in place and the revenue returned.
   */
  method Allocate(catalog: Catalog, table: BudgetTable, queries: seq<Keyword>, rule: Rule)
    returns (total: real)
    requires table.Valid()
    requires forall i :: 0 <= i < |queries| ==> queries[i] in catalog
    requires Sound(rule, catalog, table.order, table.remaining)
    modifies table
    ensures table.Valid()
    ensures var r := Run(catalog, table.order, old(table.remaining), old(table.remaining), queries, rule);
      table.remaining == r.remaining && total == r.revenue
    ensures total + Sum(table.order, table.remaining) == Sum(table.order, old(table.remaining))
    ensures queries == [] ==> total == 0.0 && table.remaining == old(table.remaining)
  {
    total := 0.0;
    var orig := table.remaining;
    PrefixReady(catalog, table.order, orig, queries, 0);
    for i := 0 to |queries|
      invariant table.Valid()
      invariant PassReady(catalog, table.order, orig, queries[..i])
      invariant table.remaining == Run(catalog, table.order, orig, orig, queries[..i], rule).remaining
      invariant total == Run(catalog, table.order, orig, orig, queries[..i], rule).revenue
    {
      RunSettles(catalog, table.order, orig, queries, rule, i, table.remaining, total);
      ghost var before := table.remaining;
      var o := rule(orig, table.remaining, queries[i]);
      if o.winner.Some? {
        table.Charge(o.winner.value, o.charge);
      }
      assert table.remaining == Settle(before, o);
      total := total + o.charge;
    }
    assert queries[..|queries|] == queries;
    RevenueConservation(catalog, table.order, orig, orig, queries, rule);
  }

  /**
   * adwords: one pass over the queries in order with the strategy `algo`;
   * the MSVV snapshot is the table as the call finds it.
   */
  method Adwords(catalog: Catalog, table: BudgetTable, queries: seq<Keyword>, algo: Algo, psi: real -> real)
    returns (total: real)
    requires table.Valid() && (algo == Greedy ==> Covers(catalog, table.order))
    requires forall i :: 0 <= i < |queries| ==> queries[i] in catalog
    requires algo == Msvv ==>
      SnapshotNonZero(table.order, table.remaining) && forall k :: k in catalog ==> UniqueBidders(catalog[k])
    modifies table
    ensures table.Valid()
    ensures Sound(Strategy(catalog, table.order, algo, psi), catalog, table.order, old(table.remaining))
    ensures var r := Run(catalog, table.order, old(table.remaining), old(table.remaining), queries,
                         Strategy(catalog, table.order, algo, psi));
      table.remaining == r.remaining && total == r.revenue
  {
    StrategySound(catalog, table.order, algo, psi, table.remaining);
    total := Allocate(catalog, table, queries, Strategy(catalog, table.order, algo, psi));
  }
}
