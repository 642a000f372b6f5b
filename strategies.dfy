/**
 * The three matching strategies of adwords.py. Each takes the bid rows of one
 * query keyword and the budget table, and returns a winner with its charge,
 * or no winner and a charge of 0. A bidder can win only if its remaining
 * budget is at least its bid.
 */
module MatchingStrategy {
  import opened Wrappers
  import opened BidderCatalog
  import opened SortedSelection

  datatype Algo = Greedy | Balance | Msvv

  /** The pair (designated_bidder, revenue) that every strategy returns. */
  datatype Outcome = Outcome(winner: Option<Adv>, charge: real)

  const NoWinner: Outcome := Outcome(None, 0.0)

  predicate Affords(remaining: Budgets, b: Bid)
    requires b.adv in remaining
  {
    remaining[b.adv] >= b.value
  }

  /**
   * Position `p` of the budget table is an interested bidder of the query
   * whose remaining budget covers its bid.
   */
  predicate Eligible(order: seq<Adv>, remaining: Budgets, bids: seq<Bid>, p: nat)
    requires p < |order| && order[p] in remaining
  {
    HasBid(bids, order[p]) && remaining[order[p]] >= BidOf(bids, order[p])
  }

  // ---------------------------------------------------------------- greedy

  /** Greedy's sort: higher bid value first, then lower advertiser id. */
  function GreedyKey(b: Bid): SortKey {
    SortKey(b.value, b.adv)
  }

  /**
   * greedy: the highest bid among the bidders who can afford it, ties to the
   * lower advertiser id; the charge is that bid.
   */
  function SelectGreedy(bids: seq<Bid>, remaining: Budgets): (o: Outcome)
    requires forall b :: b in bids ==> b.adv in remaining
    ensures o.winner.None? <==> forall b :: b in bids ==> !Affords(remaining, b)
    ensures o.winner.None? ==> o.charge == 0.0
    ensures o.winner.Some? ==>
      Bid(o.winner.value, o.charge) in bids && remaining[o.winner.value] >= o.charge
    ensures o.winner.Some? ==> forall b :: b in bids && Affords(remaining, b) ==>
      b.value < o.charge || (b.value == o.charge && o.winner.value <= b.adv)
  {
    match FirstInOrder(bids, GreedyKey, (b: Bid) => b.adv in remaining && remaining[b.adv] >= b.value)
    case None => NoWinner
    case Some(w) => Outcome(Some(w.adv), w.value)
  }

  // --------------------------------------------------------------- balance

  /** Balance's sort: higher remaining budget first, then lower advertiser id. */
  function BalanceKey(row: BudgetRow): SortKey {
    SortKey(row.budget, row.adv)
  }

  /**
   * balance: among the interested bidders in the budget table that can
   * afford their bid, the one with the most budget left, ties to the lower
   * advertiser id; the charge is its bid for the keyword.
   */
  function SelectBalance(bids: seq<Bid>, order: seq<Adv>, remaining: Budgets): (o: Outcome)
    requires Listed(order, remaining)
    ensures o.winner.None? <==> forall p :: 0 <= p < |order| ==> !Eligible(order, remaining, bids, p)
    ensures o.winner.None? ==> o.charge == 0.0
    ensures o.winner.Some? ==>
      && o.winner.value in order && HasBid(bids, o.winner.value)
      && o.charge == BidOf(bids, o.winner.value) && remaining[o.winner.value] >= o.charge
    ensures o.winner.Some? ==> forall p :: 0 <= p < |order| && Eligible(order, remaining, bids, p) ==>
      || remaining[order[p]] < remaining[o.winner.value]
      || (remaining[order[p]] == remaining[o.winner.value] && o.winner.value <= order[p])
  {
    var rows := InterestedRows(order, remaining, bids);
    var ok := (row: BudgetRow) => HasBid(bids, row.adv) && row.budget >= BidOf(bids, row.adv);
    var r := FirstInOrder(rows, BalanceKey, ok);
    assert forall p :: 0 <= p < |order| && Eligible(order, remaining, bids, p) ==>
      BudgetRow(p, order[p], remaining[order[p]]) in rows && ok(BudgetRow(p, order[p], remaining[order[p]]));
    match r
    case None => NoWinner
    case Some(w) =>
      assert Eligible(order, remaining, bids, w.pos);
      Outcome(Some(w.adv), BidOf(bids, w.adv))
  }

  // ------------------------------------------------------------------ msvv

  /** The share of its call-start budget an advertiser has spent. */
  function FractionSpent(original: real, current: real): real
    requires original != 0.0
  {
    (original - current) / original
  }

  /** bid * psi, where psi is the discount for the fraction already spent. */
  function ScaledBid(bid: real, original: real, current: real, psi: real -> real): real
    requires original != 0.0
  {
    bid * psi(FractionSpent(original, current))
  }

  /** An entry of bidder_scale_list: table position, advertiser and scaled bid. */
  datatype ScaledRow = ScaledRow(pos: nat, adv: Adv, scaled: real)

  /**
   * MSVV's sort: higher scaled bid first; a stable sort keeps rows with equal
   * scaled bids in the order of the list, which is budget-table order.
   */
  function MsvvKey(x: ScaledRow): SortKey {
    SortKey(x.scaled, x.pos)
  }

  /** The call-start snapshot is defined and nonzero for every advertiser of the table. */
  predicate SnapshotNonZero(order: seq<Adv>, orig: Budgets) {
    forall i :: 0 <= i < |order| ==> order[i] in orig && orig[order[i]] != 0.0
  }

  /** The scaled bid of the interested advertiser at table position `p`. */
  function MsvvScore(bids: seq<Bid>, order: seq<Adv>, remaining: Budgets, orig: Budgets,
                     psi: real -> real, p: nat): real
    requires Listed(order, remaining) && SnapshotNonZero(order, orig)
    requires p < |order| && HasBid(bids, order[p])
  {
    ScaledBid(BidOf(bids, order[p]), orig[order[p]], remaining[order[p]], psi)
  }

  /** bidder_scale_list: each interested row paired with its scaled bid, in row order. */
  function Scale(bids: seq<Bid>, order: seq<Adv>, remaining: Budgets, orig: Budgets,
                 psi: real -> real, rows: seq<BudgetRow>): (scaled: seq<ScaledRow>)
    requires Listed(order, remaining) && SnapshotNonZero(order, orig)
    requires forall row :: row in rows ==> row.pos < |order| && order[row.pos] == row.adv && HasBid(bids, row.adv)
    ensures forall x :: x in scaled ==>
      && x.pos < |order| && order[x.pos] == x.adv && HasBid(bids, x.adv)
      && x.scaled == MsvvScore(bids, order, remaining, orig, psi, x.pos)
    ensures forall row :: row in rows ==>
      ScaledRow(row.pos, row.adv, MsvvScore(bids, order, remaining, orig, psi, row.pos)) in scaled
  {
    if rows == [] then []
    else
      assert forall row :: row in rows ==> row == rows[0] || row in rows[1..];
      var head := rows[0];
      [ScaledRow(head.pos, head.adv, MsvvScore(bids, order, remaining, orig, psi, head.pos))]
        + Scale(bids, order, remaining, orig, psi, rows[1..])
  }

  /**
   * Table position `wp` holds an eligible bidder and every eligible bidder
   * either scales lower or scales the same and comes later in the table.
   */
  ghost predicate MsvvWinnerAt(bids: seq<Bid>, order: seq<Adv>, remaining: Budgets, orig: Budgets,
                               psi: real -> real, wp: int)
    requires Listed(order, remaining) && SnapshotNonZero(order, orig)
  {
    && 0 <= wp < |order|
    && Eligible(order, remaining, bids, wp)
    && forall p :: 0 <= p < |order| && Eligible(order, remaining, bids, p) ==>
         || MsvvScore(bids, order, remaining, orig, psi, p) < MsvvScore(bids, order, remaining, orig, psi, wp)
         || (MsvvScore(bids, order, remaining, orig, psi, p) == MsvvScore(bids, order, remaining, orig, psi, wp)
             && wp <= p)
  }

  /**
   * msvv: among the interested bidders that can afford their bid, the one
   * with the highest bid * psi(fraction spent since the call-start snapshot
   * `orig`), ties kept in table order; the charge is the unscaled bid.
   */
  function SelectMsvv(bids: seq<Bid>, order: seq<Adv>, remaining: Budgets, orig: Budgets,
                      psi: real -> real): (o: Outcome)
    requires Listed(order, remaining) && SnapshotNonZero(order, orig) && UniqueBidders(bids)
    ensures o.winner.None? <==> forall p :: 0 <= p < |order| ==> !Eligible(order, remaining, bids, p)
    ensures o.winner.None? ==> o.charge == 0.0
    ensures o.winner.Some? ==>
      exists wp :: MsvvWinnerAt(bids, order, remaining, orig, psi, wp) && order[wp] == o.winner.value
    ensures o.winner.Some? ==>
      o.winner.value in order && HasBid(bids, o.winner.value) && o.charge == BidOf(bids, o.winner.value)
  {
    var rows := InterestedRows(order, remaining, bids);
    var scaled := Scale(bids, order, remaining, orig, psi, rows);
    var ok := (x: ScaledRow) => x.adv in remaining && HasBid(bids, x.adv) && remaining[x.adv] >= BidOf(bids, x.adv);
    var r := FirstInOrder(scaled, MsvvKey, ok);
    assert forall p :: 0 <= p < |order| && Eligible(order, remaining, bids, p) ==>
      ScaledRow(p, order[p], MsvvScore(bids, order, remaining, orig, psi, p)) in scaled
      && ok(ScaledRow(p, order[p], MsvvScore(bids, order, remaining, orig, psi, p)));
    match r
    case None => NoWinner
    case Some(w) =>
      assert MsvvWinnerAt(bids, order, remaining, orig, psi, w.pos);
      Outcome(Some(w.adv), BidOf(bids, w.adv))
  }

  lemma NothingSpent(budget: real)
    requires budget != 0.0
    ensures FractionSpent(budget, budget) == 0.0
  {
  }

  /** At the snapshot, a scaled bid no larger than another comes from a bid no larger than the other. */
  lemma SnapshotScaleOrder(bp: real, bw: real, budgetP: real, budgetW: real, psi: real -> real)
    requires budgetP != 0.0 && budgetW != 0.0 && psi(0.0) > 0.0
    requires ScaledBid(bp, budgetP, budgetP, psi) <= ScaledBid(bw, budgetW, budgetW, psi)
    ensures bp <= bw
  {
    NothingSpent(budgetP);
    NothingSpent(budgetW);
    var c := psi(0.0);
    assert bp * c <= bw * c;
  }

  /** With psi strictly decreasing, the same positive bid scales higher for the less-spent advertiser. */
  lemma LessSpentScalesHigher(b: real, origP: real, curP: real, origW: real, curW: real, psi: real -> real)
    requires origP != 0.0 && origW != 0.0 && b > 0.0
    requires forall x, y :: x < y ==> psi(y) < psi(x)
    requires FractionSpent(origP, curP) < FractionSpent(origW, curW)
    ensures ScaledBid(b, origW, curW, psi) < ScaledBid(b, origP, curP, psi)
  {
    var lo := psi(FractionSpent(origW, curW));
    var hi := psi(FractionSpent(origP, curP));
    assert lo < hi;
    assert b * lo < b * hi;
  }

  /**
   * At the call-start snapshot nothing has been spent, so with psi(0) > 0
   * msvv ranks the affordable bidders by bid alone, as greedy does.
   */
  lemma MsvvAtSnapshotHighestBid(bids: seq<Bid>, order: seq<Adv>, remaining: Budgets, psi: real -> real)
    requires Listed(order, remaining) && SnapshotNonZero(order, remaining) && UniqueBidders(bids)
    requires psi(0.0) > 0.0
    ensures var o := SelectMsvv(bids, order, remaining, remaining, psi);
      o.winner.Some? ==> forall p :: 0 <= p < |order| && Eligible(order, remaining, bids, p) ==>
        BidOf(bids, order[p]) <= o.charge
  {
    var o := SelectMsvv(bids, order, remaining, remaining, psi);
    if o.winner.Some? {
      var wp :| MsvvWinnerAt(bids, order, remaining, remaining, psi, wp) && order[wp] == o.winner.value;
      WinnerAtSnapshotHighestBid(bids, order, remaining, psi, wp);
    }
  }

  lemma WinnerAtSnapshotHighestBid(bids: seq<Bid>, order: seq<Adv>, remaining: Budgets, psi: real -> real, wp: int)
    requires Listed(order, remaining) && SnapshotNonZero(order, remaining) && psi(0.0) > 0.0
    requires MsvvWinnerAt(bids, order, remaining, remaining, psi, wp)
    ensures forall p :: 0 <= p < |order| && Eligible(order, remaining, bids, p) ==>
      BidOf(bids, order[p]) <= BidOf(bids, order[wp])
  {
    forall p | 0 <= p < |order| && Eligible(order, remaining, bids, p)
      ensures BidOf(bids, order[p]) <= BidOf(bids, order[wp])
    {
      SnapshotScaleOrder(BidOf(bids, order[p]), BidOf(bids, order[wp]), remaining[order[p]], remaining[order[wp]], psi);
    }
  }

  /**
   * With psi strictly decreasing, an affordable bidder offering the same
   * positive bid as the msvv winner has spent at least as large a share of
   * its snapshot budget: msvv favours the less-spent advertiser.
   */
  lemma MsvvFavoursLessSpent(bids: seq<Bid>, order: seq<Adv>, remaining: Budgets, orig: Budgets, psi: real -> real)
    requires Listed(order, remaining) && SnapshotNonZero(order, orig) && UniqueBidders(bids)
    requires forall x, y :: x < y ==> psi(y) < psi(x)
    ensures var o := SelectMsvv(bids, order, remaining, orig, psi);
      o.winner.Some? && o.charge > 0.0 ==>
        forall p :: 0 <= p < |order| && Eligible(order, remaining, bids, p) && BidOf(bids, order[p]) == o.charge ==>
          FractionSpent(orig[order[p]], remaining[order[p]])
            >= FractionSpent(orig[o.winner.value], remaining[o.winner.value])
  {
    var o := SelectMsvv(bids, order, remaining, orig, psi);
    if o.winner.Some? && o.charge > 0.0 {
      var wp :| MsvvWinnerAt(bids, order, remaining, orig, psi, wp) && order[wp] == o.winner.value;
      WinnerLeastSpent(bids, order, remaining, orig, psi, wp);
    }
  }

  lemma WinnerLeastSpent(bids: seq<Bid>, order: seq<Adv>, remaining: Budgets, orig: Budgets, psi: real -> real, wp: int)
    requires Listed(order, remaining) && SnapshotNonZero(order, orig)
    requires forall x, y :: x < y ==> psi(y) < psi(x)
    requires MsvvWinnerAt(bids, order, remaining, orig, psi, wp)
    ensures BidOf(bids, order[wp]) > 0.0 ==>
      forall p :: 0 <= p < |order| && Eligible(order, remaining, bids, p) && BidOf(bids, order[p]) == BidOf(bids, order[wp]) ==>
        FractionSpent(orig[order[p]], remaining[order[p]]) >= FractionSpent(orig[order[wp]], remaining[order[wp]])
  {
    var b := BidOf(bids, order[wp]);
    if b > 0.0 {
      forall p | 0 <= p < |order| && Eligible(order, remaining, bids, p) && BidOf(bids, order[p]) == b
        ensures FractionSpent(orig[order[p]], remaining[order[p]]) >= FractionSpent(orig[order[wp]], remaining[order[wp]])
      {
        if FractionSpent(orig[order[p]], remaining[order[p]]) < FractionSpent(orig[order[wp]], remaining[order[wp]]) {
          LessSpentScalesHigher(b, orig[order[p]], remaining[order[p]], orig[order[wp]], remaining[order[wp]], psi);
          assert false;
        }
      }
    }
  }

  // -------------------------------------------------------------- dispatch

  /**
   * What the strategy for `algo` needs of the tables for one query. Only
   * greedy looks every bidder up in the budget table; balance and msvv keep
   * the table rows of the bidders and pass over a bidder without a row.
   */
  ghost predicate Ready(algo: Algo, bids: seq<Bid>, order: seq<Adv>, remaining: Budgets, orig: Budgets) {
    && Listed(order, remaining)
    && (algo == Greedy ==> forall b :: b in bids ==> b.adv in remaining)
    && (algo == Msvv ==> SnapshotNonZero(order, orig) && UniqueBidders(bids))
  }

  /** The strategy named by `algo`, applied to one query's bid rows. */
  function Select(algo: Algo, bids: seq<Bid>, order: seq<Adv>, remaining: Budgets, orig: Budgets,
                  psi: real -> real): (o: Outcome)
    requires Ready(algo, bids, order, remaining, orig)
    ensures o.winner.None? ==> o.charge == 0.0
    ensures o.winner.Some? ==>
      Bid(o.winner.value, o.charge) in bids && o.winner.value in remaining && remaining[o.winner.value] >= o.charge
  {
    match algo
    case Greedy => SelectGreedy(bids, remaining)
    case Balance => SelectBalance(bids, order, remaining)
    case Msvv => SelectMsvv(bids, order, remaining, orig, psi)
  }
}
