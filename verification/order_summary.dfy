/** src/components/orders/OrderSummary.tsx: the per-account commissions and totals of
    an order, and the gates that decide what the summary panel shows. */
module OrderSummary {
  import opened Prelude
  import opened OrderTypes
  import OrdersMockData

  /** One row of `accountSummaries`: the allocation with its commission and total. */
  datatype AccountSummary = AccountSummary(allocation: OrderAllocation, commission: real, total: real)

  /** The `summary` memo. */
  datatype Summary = Summary(
    accountSummaries: seq<AccountSummary>,
    totalCommission: real,
    estimatedTotal: real,
    shares: real,
    principal: real)

  /** A buy pays the commission on top of the principal; a sell receives the principal
      less the commission. */
  function WithCommission(side: OrderSide, principal: real, commission: real): (r: real)
    ensures side == Buy ==> r - principal == commission
    ensures side == Sell ==> principal - r == commission
  {
    if side == Buy then principal + commission else principal - commission
  }

  function SummarizeAccount(alloc: OrderAllocation, side: OrderSide): (r: AccountSummary)
    ensures r.allocation == alloc
    ensures r.commission == OrdersMockData.CalculateCommission(alloc.brokerId, alloc.shares)
    ensures r.commission >= 0.0
    ensures side == Buy ==> r.total >= alloc.principal
    ensures side == Sell ==> r.total <= alloc.principal
    ensures r.total == WithCommission(side, alloc.principal, r.commission)
  {
    var commission := OrdersMockData.CalculateCommission(alloc.brokerId, alloc.shares);
    AccountSummary(alloc, commission, WithCommission(side, alloc.principal, commission))
  }

  function Commissions(s: seq<AccountSummary>): (r: seq<real>)
    ensures |r| == |s| && forall i :: 0 <= i < |s| ==> r[i] == s[i].commission
  {
    seq(|s|, i requires 0 <= i < |s| => s[i].commission)
  }

  function AccountTotals(s: seq<AccountSummary>): (r: seq<real>)
    ensures |r| == |s| && forall i :: 0 <= i < |s| ==> r[i] == s[i].total
  {
    seq(|s|, i requires 0 <= i < |s| => s[i].total)
  }

  function AccountPrincipals(s: seq<OrderAllocation>): (r: seq<real>)
    ensures |r| == |s| && forall i :: 0 <= i < |s| ==> r[i] == s[i].principal
  {
    seq(|s|, i requires 0 <= i < |s| => s[i].principal)
  }

  /** The summary of an order: one row per allocation, in order, and the order-level
      total taken from the order's own principal. */
  function Summarize(formData: OrderFormData): (r: Summary)
    ensures |r.accountSummaries| == |formData.allocations|
    ensures forall i :: 0 <= i < |formData.allocations| ==>
      r.accountSummaries[i] == SummarizeAccount(formData.allocations[i], formData.side)
    ensures r.totalCommission == Sum(Commissions(r.accountSummaries)) && r.totalCommission >= 0.0
    ensures formData.side == Buy ==> r.estimatedTotal == formData.principal + r.totalCommission
    ensures formData.side == Sell ==> r.estimatedTotal == formData.principal - r.totalCommission
    ensures r.shares == formData.shares && r.principal == formData.principal
  {
    var rows := seq(|formData.allocations|, i requires 0 <= i < |formData.allocations| =>
      SummarizeAccount(formData.allocations[i], formData.side));
    var totalCommission := Sum(Commissions(rows));
    SumNonNegative(Commissions(rows));
    Summary(rows, totalCommission, WithCommission(formData.side, formData.principal, totalCommission),
            formData.shares, formData.principal)
  }

  /** The order-level estimate agrees with the account rows exactly when the account
      principals add up to the order principal: the sum of the per-account totals is
      then the estimated total. */
  lemma EstimatedTotalIsSumOfAccountTotals(formData: OrderFormData)
    requires Sum(AccountPrincipals(formData.allocations)) == formData.principal
    ensures var r := Summarize(formData);
      Sum(AccountTotals(r.accountSummaries)) == r.estimatedTotal
  {
    var r := Summarize(formData);
    var d := if formData.side == Buy then -1.0 else 1.0;
    var p := AccountPrincipals(formData.allocations);
    var c := Commissions(r.accountSummaries);
    var t := AccountTotals(r.accountSummaries);
    forall i | 0 <= i < |t| ensures t[i] == p[i] - d * c[i] {
      assert r.accountSummaries[i] == SummarizeAccount(formData.allocations[i], formData.side);
    }
    SumLinear(p, c, t, d);
  }

  /** Allocations that carry their percentage of the order principal and whose
      percentages add up to 100 have principals that add up to the order principal. */
  lemma BalancedPrincipalsSumToOrder(s: seq<OrderAllocation>, totalShares: real, totalPrincipal: real)
    requires forall i :: 0 <= i < |s| ==> Proportional(s[i], totalShares, totalPrincipal)
    requires TotalPercentage(s) == 100.0
    ensures Sum(AccountPrincipals(s)) == totalPrincipal
  {
    var f := totalPrincipal / 100.0;
    forall i | 0 <= i < |s| ensures AccountPrincipals(s)[i] == Percentages(s)[i] * f {
      PercentOfIsScaling(s[i].percentage, totalPrincipal);
    }
    SumScale(Percentages(s), AccountPrincipals(s), f);
  }

  lemma PercentOfIsScaling(pct: real, total: real)
    ensures PercentOf(pct, total) == pct * (total / 100.0)
  {
  }

  /** `hasValidOrder`: the summary is shown only for a positive quantity and at least
      one account. */
  predicate HasValidOrder(summary: Summary): (b: bool)
    ensures b ==> summary.shares > 0.0 && |summary.accountSummaries| >= 1
    ensures summary.accountSummaries == [] || summary.shares <= 0.0 ==> !b
  {
    summary.shares > 0.0 && |summary.accountSummaries| > 0
  }

  /** The per-account breakdown is shown only for more than one account. */
  predicate ShowsBreakdown(summary: Summary): (b: bool)
    ensures b ==> |summary.accountSummaries| >= 2
    ensures b && summary.shares > 0.0 ==> HasValidOrder(summary)
  {
    |summary.accountSummaries| > 1
  }

  lemma SummaryGates(formData: OrderFormData)
    ensures HasValidOrder(Summarize(formData)) <==> formData.shares > 0.0 && |formData.allocations| > 0
    ensures ShowsBreakdown(Summarize(formData)) <==> |formData.allocations| > 1
    ensures ShowsBreakdown(Summarize(formData)) && formData.shares > 0.0 ==> HasValidOrder(Summarize(formData))
  {
  }
}
