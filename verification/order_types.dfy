/** The order-entry records of src/types/orders.ts and the parts of
    src/types/portfolio.ts they use. */
module OrderTypes {
  import opened Prelude

  datatype OrderSide = Buy | Sell
  datatype OrderType = Market | Limit | Stop

  datatype AccountType = Margin | Cash | IRA | RothIRA | K401 | ISA | Vault | Trading | ColdStorage

  /** An entry of the broker table (`brokers` in portfolioMockData, which is not part of
      this model); only the fields the order form reads. */
  datatype Broker = Broker(id: string, name: string, shortName: string)

  /** One account of a preset: a percentage of the order for one account. */
  datatype AccountAllocation = AccountAllocation(accountId: string, brokerId: string, percentage: real)

  datatype AllocationPreset = AllocationPreset(id: string, name: string, allocations: seq<AccountAllocation>)

  /** One account's share of an order. */
  datatype OrderAllocation = OrderAllocation(
    accountId: string,
    brokerId: string,
    brokerName: string,
    brokerShortName: string,
    accountType: AccountType,
    percentage: real,
    shares: real,
    principal: real)

  datatype SecurityPrice = SecurityPrice(symbol: string, name: string, price: real, change: real, changePercent: real)

  /** An account that already holds the security (the fields the order form reads). */
  datatype AccountPosition = AccountPosition(
    accountId: string,
    brokerId: string,
    brokerName: string,
    brokerShortName: string,
    accountType: AccountType)

  datatype OrderPrefill = OrderPrefill(symbol: string, name: string, side: OrderSide, accounts: seq<AccountPosition>)

  datatype OrderFormData = OrderFormData(
    symbol: string,
    name: string,
    side: OrderSide,
    orderType: OrderType,
    shares: real,
    principal: real,
    limitPrice: Option<real>,
    stopPrice: Option<real>,
    allocations: seq<OrderAllocation>,
    usePreset: bool,
    presetId: Option<string>)

  /** Two allocations are for the same account: only the amounts may differ. */
  predicate SameAccount(a: OrderAllocation, b: OrderAllocation)
  {
    a.accountId == b.accountId && a.brokerId == b.brokerId && a.brokerName == b.brokerName &&
    a.brokerShortName == b.brokerShortName && a.accountType == b.accountType
  }

  /** `pct / 100 * total`: a percentage of an order total. */
  function PercentOf(pct: real, total: real): real
  {
    pct / 100.0 * total
  }

  /** The allocation's shares and principal are its percentage of the order totals. */
  predicate Proportional(a: OrderAllocation, totalShares: real, totalPrincipal: real)
  {
    a.shares == PercentOf(a.percentage, totalShares) && a.principal == PercentOf(a.percentage, totalPrincipal)
  }

  function Percentages(s: seq<OrderAllocation>): (r: seq<real>)
    ensures |r| == |s| && forall i :: 0 <= i < |s| ==> r[i] == s[i].percentage
  {
    seq(|s|, i requires 0 <= i < |s| => s[i].percentage)
  }

  /** The sum shown in the allocator's total row (before `Math.round`). */
  function TotalPercentage(s: seq<OrderAllocation>): real
  {
    Sum(Percentages(s))
  }
}
