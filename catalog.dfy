/**
 * The bidder catalog of adwords.py: the keyword-indexed bid table, the
 * advertiser-indexed budget table that the allocation loop updates in place,
 * and the restriction of the budget table to the bidders of one query.
 */
module BidderCatalog {

  /** An advertiser id, as it appears in both tables. */
  type Adv = int

  /** A query keyword. */
  type Keyword = string

  /** One row of the bid table: an advertiser and its bid value for the row's keyword. */
  datatype Bid = Bid(adv: Adv, value: real)

  /** Keyword -> the bid rows registered for it, in table order. */
  type Catalog = map<Keyword, seq<Bid>>

  /** Advertiser id -> remaining budget. */
  type Budgets = map<Adv, real>

  /**
   * A row of the budget table kept for one query: `pos` is the row's position
   * in the whole budget table (the index that reset_index exposes), `budget`
   * the advertiser's remaining budget.
   */
  datatype BudgetRow = BudgetRow(pos: nat, adv: Adv, budget: real)

  predicate Distinct(order: seq<Adv>) {
    forall i, j :: 0 <= i < j < |order| ==> order[i] != order[j]
  }

  /** Every advertiser listed in `order` has an entry in `m`. */
  predicate Listed(order: seq<Adv>, m: Budgets) {
    forall i :: 0 <= i < |order| ==> order[i] in m
  }

  lemma ListedMembers(order: seq<Adv>, m: Budgets)
    requires Listed(order, m)
    ensures forall a :: a in order ==> a in m
  {
    forall a | a in order
      ensures a in m
    {
      var i :| 0 <= i < |order| && order[i] == a;
    }
  }

  /** The budget table: one row per advertiser, in `order`, with its budget in the map. */
  ghost predicate TableShape(order: seq<Adv>, remaining: Budgets) {
    Distinct(order) && Listed(order, remaining) && forall a :: a in remaining ==> a in order
  }

  /** Every advertiser that bids on some keyword has a row in the budget table. */
  predicate Covers(catalog: Catalog, order: seq<Adv>) {
    forall k, b :: k in catalog && b in catalog[k] ==> b.adv in order
  }

  /** No keyword holds two rows for the same advertiser. */
  predicate UniqueBidders(bids: seq<Bid>) {
    forall i, j :: 0 <= i < j < |bids| ==> bids[i].adv != bids[j].adv
  }

  predicate NonNegativeBids(catalog: Catalog) {
    forall k, b :: k in catalog && b in catalog[k] ==> b.value >= 0.0
  }

  predicate HasBid(bids: seq<Bid>, a: Adv) {
    exists b :: b in bids && b.adv == a
  }

  /**
   * The bid value of advertiser `a` in the rows of one keyword: the first
   * matching row, as a row filter followed by `iloc[0, 1]` reads it.
   */
  function BidOf(bids: seq<Bid>, a: Adv): (v: real)
    requires HasBid(bids, a)
    ensures Bid(a, v) in bids
    ensures exists i :: 0 <= i < |bids| && bids[i] == Bid(a, v) && forall j :: 0 <= j < i ==> bids[j].adv != a
    ensures UniqueBidders(bids) ==> forall b :: b in bids && b.adv == a ==> b.value == v
  {
    if bids[0].adv == a then bids[0].value
    else
      assert HasBid(bids[1..], a) by {
        var b :| b in bids && b.adv == a;
        assert b in bids[1..];
      }
      var v := BidOf(bids[1..], a);
      assert exists i :: 0 <= i < |bids| && bids[i] == Bid(a, v) && forall j :: 0 <= j < i ==> bids[j].adv != a by {
        var k :| 0 <= k < |bids[1..]| && bids[1..][k] == Bid(a, v) && forall j :: 0 <= j < k ==> bids[1..][j].adv != a;
        assert bids[k + 1] == Bid(a, v);
        assert forall j :: 0 <= j < k + 1 ==> bids[j].adv != a by {
          assert forall j :: 1 <= j < k + 1 ==> bids[j] == bids[1..][j - 1];
        }
      }
      v
  }

  /**
   * find_interested_bidder_budget_df: the rows of the budget table whose
   * advertiser holds a bid in `bids`, in table order.
   */
  function InterestedRows(order: seq<Adv>, remaining: Budgets, bids: seq<Bid>): (rows: seq<BudgetRow>)
    requires Listed(order, remaining)
    ensures forall row :: row in rows ==>
      row.pos < |order| && order[row.pos] == row.adv && HasBid(bids, row.adv) && row.budget == remaining[row.adv]
    ensures forall p :: 0 <= p < |order| && HasBid(bids, order[p]) ==>
      BudgetRow(p, order[p], remaining[order[p]]) in rows
    ensures forall i, j :: 0 <= i < j < |rows| ==> rows[i].pos < rows[j].pos
    decreases |order|
  {
    if order == [] then []
    else
      var n := |order| - 1;
      var front := InterestedRows(order[..n], remaining, bids);
      if HasBid(bids, order[n]) then front + [BudgetRow(n, order[n], remaining[order[n]])] else front
  }

  /** The total of the budgets of the advertisers in `order`. */
  function Sum(order: seq<Adv>, m: Budgets): real
    requires Listed(order, m)
  {
    if order == [] then 0.0
    else
      m[order[0]] + Sum(order[1..], m)
  }

  lemma {:induction false} SumFrame(order: seq<Adv>, m: Budgets, a: Adv, v: real)
    requires Listed(order, m)
    requires a !in order
    ensures Sum(order, m[a := v]) == Sum(order, m)
  {
    if order != [] {
      SumFrame(order[1..], m, a, v);
    }
  }

  /** Changing one advertiser's budget changes the total by exactly the difference. */
  lemma {:induction false} SumUpdate(order: seq<Adv>, m: Budgets, a: Adv, v: real)
    requires Distinct(order) && Listed(order, m)
    requires a in order
    ensures Sum(order, m[a := v]) == Sum(order, m) - m[a] + v
  {
    if order[0] == a {
      SumFrame(order[1..], m, a, v);
    } else {
      SumUpdate(order[1..], m, a, v);
    }
  }

  lemma {:induction false} SumNonNegative(order: seq<Adv>, m: Budgets)
    requires Listed(order, m) && forall i :: 0 <= i < |order| ==> m[order[i]] >= 0.0
    ensures Sum(order, m) >= 0.0
  {
    if order != [] {
      SumNonNegative(order[1..], m);
    }
  }

  /**
   * bidder_budget_df: the budget table, whose rows keep their order and whose
   * Budget column the allocation loop overwrites.
   */
  class BudgetTable {
    const order: seq<Adv>
    var remaining: Budgets

    ghost predicate Valid()
      reads this
    {
      TableShape(order, remaining)
    }

    constructor (order: seq<Adv>, budgets: Budgets)
      requires TableShape(order, budgets)
      ensures Valid()
      ensures this.order == order && remaining == budgets
    {
      this.order := order;
      remaining := budgets;
    }

    /** Lowers the budget of advertiser `a` by `amount`; no other row changes. */
    method Charge(a: Adv, amount: real)
      requires Valid() && a in remaining
      modifies this
      ensures Valid()
      ensures remaining == old(remaining)[a := old(remaining)[a] - amount]
    {
      remaining := remaining[a := remaining[a] - amount];
    }

    /** Puts back a budget column saved earlier. */
    method Restore(snapshot: Budgets)
      requires TableShape(order, snapshot)
      modifies this
      ensures Valid()
      ensures remaining == snapshot
    {
      remaining := snapshot;
    }
  }
}
