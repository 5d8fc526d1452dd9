/** src/components/orders/OrderForm.tsx: the order ticket's state. The `useState`
    fields are the fields of `OrderForm`; the handlers and the two effects are its
    methods; `formData` and `isValid` are functions of the fields. */
module OrderForm {
  import opened Prelude
  import opened OrderTypes
  import OrdersMockData
  import AccountAllocator
  import OrderSummary

  const Manual := "manual"

  /** `a || b` on strings: the empty string is falsy. */
  function OrElse(a: string, b: string): (r: string)
    ensures a != "" ==> r == a
    ensures a == "" ==> r == b
  {
    if a != "" then a else b
  }

  /** `brokers.find(b => b.id === id)`. */
  function FindBroker(brokers: seq<Broker>, id: string): (r: Option<Broker>)
    ensures r.Some? ==> r.value in brokers && r.value.id == id
    ensures r.None? ==> forall b :: b in brokers ==> b.id != id
  {
    Find(brokers, (b: Broker) => b.id == id)
  }

  function BrokerName(broker: Option<Broker>): string
  {
    if broker.Some? then broker.value.name else ""
  }

  function BrokerShortName(broker: Option<Broker>): string
  {
    if broker.Some? then broker.value.shortName else ""
  }

  predicate HasPrefillAccounts(prefill: Option<OrderPrefill>)
  {
    prefill.Some? && |prefill.value.accounts| > 0
  }

  /** A prefilled account: the broker table's names win over the position's own. */
  function PrefillAllocation(brokers: seq<Broker>, acc: AccountPosition, pct: real,
                             shares: real, principal: real): (r: OrderAllocation)
    ensures r.accountId == acc.accountId && r.brokerId == acc.brokerId && r.accountType == acc.accountType
    ensures r.percentage == pct && Proportional(r, shares, principal)
  {
    var broker := FindBroker(brokers, acc.brokerId);
    OrderAllocation(acc.accountId, acc.brokerId,
                    OrElse(BrokerName(broker), acc.brokerName),
                    OrElse(BrokerShortName(broker), acc.brokerShortName),
                    acc.accountType, pct, PercentOf(pct, shares), PercentOf(pct, principal))
  }

  /** The default: the whole order in the margin account of the first broker. */
  function DefaultAllocation(broker: Broker, shares: real, principal: real): (r: OrderAllocation)
    ensures r.brokerId == broker.id && r.accountId == broker.id + "-margin" && r.accountType == Margin
    ensures r.percentage == 100.0 && r.shares == shares && r.principal == principal
  {
    OrderAllocation(broker.id + "-margin", broker.id, broker.name, broker.shortName, Margin, 100.0, shares, principal)
  }

  /** What the initialisation effect sets: nothing without a security, an equal share
      for each prefilled account, or else one 100% default allocation. */
  function InitialAllocations(brokers: seq<Broker>, selected: Option<SecurityPrice>, prefill: Option<OrderPrefill>,
                              shares: real, principal: real): (r: seq<OrderAllocation>)
    requires |brokers| > 0
    ensures selected.None? ==> r == []
    ensures selected.Some? && HasPrefillAccounts(prefill) ==>
      |r| == |prefill.value.accounts| &&
      forall i :: 0 <= i < |r| ==>
        r[i].accountId == prefill.value.accounts[i].accountId &&
        r[i].brokerId == prefill.value.accounts[i].brokerId &&
        r[i].accountType == prefill.value.accounts[i].accountType &&
        r[i].percentage == 100.0 / |r| as real
    ensures selected.Some? && !HasPrefillAccounts(prefill) ==> r == [DefaultAllocation(brokers[0], shares, principal)]
    ensures forall i :: 0 <= i < |r| ==> Proportional(r[i], shares, principal) && r[i].percentage >= 0.0
  {
    if selected.None? then []
    else if HasPrefillAccounts(prefill) then
      var accounts := prefill.value.accounts;
      var pct := 100.0 / |accounts| as real;
      seq(|accounts|, i requires 0 <= i < |accounts| => PrefillAllocation(brokers, accounts[i], pct, shares, principal))
    else
      [DefaultAllocation(brokers[0], shares, principal)]
  }

  /** Whenever a security is selected, the initial allocations add up to 100%. */
  lemma InitialAllocationsSumTo100(brokers: seq<Broker>, selected: Option<SecurityPrice>, prefill: Option<OrderPrefill>,
                                   shares: real, principal: real)
    requires |brokers| > 0 && selected.Some?
    ensures TotalPercentage(InitialAllocations(brokers, selected, prefill, shares, principal)) == 100.0
  {
    var r := InitialAllocations(brokers, selected, prefill, shares, principal);
    if HasPrefillAccounts(prefill) {
      EqualSplitSumsTo100(r);
    } else {
      SingleAllocationTotal(r[0]);
    }
  }

  /** `n` accounts holding `100 / n` percent each hold 100% together. */
  lemma EqualSplitSumsTo100(r: seq<OrderAllocation>)
    requires |r| > 0 && forall i :: 0 <= i < |r| ==> r[i].percentage == 100.0 / |r| as real
    ensures TotalPercentage(r) == 100.0
  {
    var p := Percentages(r);
    SumConstant(p, 100.0 / |r| as real);
    EqualShares(|r|);
  }

  lemma SingleAllocationTotal(a: OrderAllocation)
    ensures TotalPercentage([a]) == a.percentage
  {
    assert Percentages([a]) == [a.percentage];
    assert Sum([a.percentage]) == a.percentage + Sum([a.percentage][1..]);
  }

  lemma EqualShares(n: nat)
    requires n > 0
    ensures n as real * (100.0 / n as real) == 100.0
  {
  }

  /** One preset entry as an allocation: names from the broker table (empty when the
      broker is unknown) and always a margin account. */
  function PresetAllocation(brokers: seq<Broker>, pa: AccountAllocation, shares: real, principal: real): (r: OrderAllocation)
    ensures r.accountId == pa.accountId && r.brokerId == pa.brokerId && r.accountType == Margin
    ensures r.percentage == pa.percentage && Proportional(r, shares, principal)
  {
    var broker := FindBroker(brokers, pa.brokerId);
    OrderAllocation(pa.accountId, pa.brokerId, BrokerName(broker), BrokerShortName(broker), Margin,
                    pa.percentage, PercentOf(pa.percentage, shares), PercentOf(pa.percentage, principal))
  }

  /** A preset applied to the current totals, entry for entry. */
  function PresetAllocations(brokers: seq<Broker>, preset: AllocationPreset, shares: real, principal: real): (r: seq<OrderAllocation>)
    ensures |r| == |preset.allocations|
    ensures forall i :: 0 <= i < |r| ==> r[i] == PresetAllocation(brokers, preset.allocations[i], shares, principal)
    ensures Percentages(r) == OrdersMockData.PresetPercentages(preset)
  {
    seq(|preset.allocations|, i requires 0 <= i < |preset.allocations| =>
      PresetAllocation(brokers, preset.allocations[i], shares, principal))
  }

  /** Every preset of the table that replaces the allocations yields a list whose
      percentages are non-negative and add up to 100. */
  lemma TablePresetsAreBalanced(brokers: seq<Broker>, preset: AllocationPreset, shares: real, principal: real)
    requires preset in OrdersMockData.AllocationPresets && preset.id != Manual
    ensures var r := PresetAllocations(brokers, preset, shares, principal);
      TotalPercentage(r) == 100.0 && forall i :: 0 <= i < |r| ==> r[i].percentage >= 0.0
  {
    OrdersMockData.PresetsSumTo100();
    OrdersMockData.PresetsNonNegative();
  }

  /** The rescale effect: percentages kept, shares and principal recomputed from the
      new totals. */
  function RecomputeAmounts(s: seq<OrderAllocation>, shares: real, principal: real): (r: seq<OrderAllocation>)
    ensures |r| == |s|
    ensures forall i :: 0 <= i < |r| ==>
      SameAccount(r[i], s[i]) && r[i].percentage == s[i].percentage && Proportional(r[i], shares, principal)
    ensures Percentages(r) == Percentages(s)
  {
    seq(|s|, i requires 0 <= i < |s| => AccountAllocator.WithPercentage(s[i], s[i].percentage, shares, principal))
  }

  /** `formData`: prices travel only with the order type that uses them, and the preset
      id only when a preset is in use. */
  function BuildFormData(selected: Option<SecurityPrice>, side: OrderSide, orderType: OrderType,
                         shares: real, principal: real, limitPrice: Option<real>, stopPrice: Option<real>,
                         allocations: seq<OrderAllocation>, presetId: string): (d: OrderFormData)
    ensures d.limitPrice.Some? ==> orderType == Limit
    ensures orderType == Limit ==> d.limitPrice == limitPrice
    ensures d.stopPrice.Some? ==> orderType == Stop
    ensures orderType == Stop ==> d.stopPrice == stopPrice
    ensures d.usePreset <==> presetId != Manual
    ensures d.presetId.Some? <==> d.usePreset
    ensures d.presetId.Some? ==> d.presetId.value == presetId
    ensures d.side == side && d.orderType == orderType && d.shares == shares && d.principal == principal
    ensures d.allocations == allocations
    ensures selected.Some? ==> d.symbol == selected.value.symbol && d.name == selected.value.name
    ensures selected.None? ==> d.symbol == "" && d.name == ""
  {
    OrderFormData(
      if selected.Some? then selected.value.symbol else "",
      if selected.Some? then selected.value.name else "",
      side, orderType, shares, principal,
      if orderType == Limit then limitPrice else None,
      if orderType == Stop then stopPrice else None,
      allocations,
      presetId != Manual,
      if presetId != Manual then Some(presetId) else None)
  }

  /** `!price || price <= 0`: a missing price, or one that is 0 or negative. */
  predicate MissingPrice(price: Option<real>)
  {
    price.None? || price.value <= 0.0
  }

  /** `isValid`. */
  function IsValidOrder(selected: Option<SecurityPrice>, shares: real, allocations: seq<OrderAllocation>,
                        orderType: OrderType, limitPrice: Option<real>, stopPrice: Option<real>): (valid: bool)
    ensures valid ==> selected.Some? && shares > 0.0 && |allocations| > 0
    ensures valid && orderType == Limit ==> limitPrice.Some? && limitPrice.value > 0.0
    ensures valid && orderType == Stop ==> stopPrice.Some? && stopPrice.value > 0.0
    ensures (selected.Some? && shares > 0.0 && |allocations| > 0 &&
             (orderType == Limit ==> !MissingPrice(limitPrice)) &&
             (orderType == Stop ==> !MissingPrice(stopPrice))) ==> valid
  {
    if selected.None? then false
    else if shares <= 0.0 then false
    else if |allocations| == 0 then false
    else if orderType == Limit && MissingPrice(limitPrice) then false
    else if orderType == Stop && MissingPrice(stopPrice) then false
    else true
  }

  /** `parseFloat(text) || undefined`: NaN (`None`) and 0 both become `undefined`. */
  function PriceInput(parsed: Option<real>): (r: Option<real>)
    ensures r.Some? <==> parsed.Some? && parsed.value != 0.0
    ensures r.Some? ==> r == parsed
  {
    if parsed.Some? && parsed.value != 0.0 then parsed else None
  }

  /** The state fields of the form, as one value. */
  datatype FormState = FormState(
    selectedSecurity: Option<SecurityPrice>,
    side: OrderSide,
    orderType: OrderType,
    shares: real,
    principal: real,
    limitPrice: Option<real>,
    stopPrice: Option<real>,
    presetId: string,
    allocations: seq<OrderAllocation>)

  class OrderForm {
    /** The broker table (not part of this model), a fixed non-empty list. */
    const brokers: seq<Broker>
    const prefill: Option<OrderPrefill>

    var selectedSecurity: Option<SecurityPrice>
    var side: OrderSide
    var orderType: OrderType
    var shares: real
    var principal: real
    var limitPrice: Option<real>
    var stopPrice: Option<real>
    var presetId: string
    var allocations: seq<OrderAllocation>

    function State(): FormState
      reads this
    {
      FormState(selectedSecurity, side, orderType, shares, principal, limitPrice, stopPrice, presetId, allocations)
    }

    /** Every allocation carries its percentage of the current shares and principal. */
    predicate Consistent()
      reads this
    {
      forall i :: 0 <= i < |allocations| ==> Proportional(allocations[i], shares, principal)
    }

    predicate NonNegative()
      reads this
    {
      forall i :: 0 <= i < |allocations| ==> allocations[i].percentage >= 0.0
    }

    /** The allocations are empty, add up to 100%, or are all 0%. */
    predicate Balanced()
      reads this
    {
      allocations == [] || TotalPercentage(allocations) == 100.0 ||
      forall i :: 0 <= i < |allocations| ==> allocations[i].percentage == 0.0
    }

    /** Mounting: the initial state, then the initialisation effect. (The rescale
        effect also runs on mount but sees no allocations.) */
    constructor(brokers: seq<Broker>, prefill: Option<OrderPrefill>)
      requires |brokers| > 0
      ensures this.brokers == brokers && this.prefill == prefill
      ensures selectedSecurity == (if prefill.Some? then OrdersMockData.GetSecurityPrice(prefill.value.symbol) else None)
      ensures side == (if prefill.Some? then prefill.value.side else Buy)
      ensures orderType == Market && shares == 0.0 && principal == 0.0
      ensures limitPrice == None && stopPrice == None && presetId == Manual
      ensures allocations == InitialAllocations(brokers, selectedSecurity, prefill, 0.0, 0.0)
      ensures Consistent() && NonNegative() && Balanced()
    {
      this.brokers := brokers;
      this.prefill := prefill;
      var selected := if prefill.Some? then OrdersMockData.GetSecurityPrice(prefill.value.symbol) else None;
      selectedSecurity := selected;
      side := if prefill.Some? then prefill.value.side else Buy;
      orderType := Market;
      shares := 0.0;
      principal := 0.0;
      limitPrice := None;
      stopPrice := None;
      presetId := Manual;
      allocations := InitialAllocations(brokers, selected, prefill, 0.0, 0.0);
      if selected.Some? {
        InitialAllocationsSumTo100(brokers, selected, prefill, 0.0, 0.0);
      }
    }

    /** `selectedSecurity?.price || 0`. */
    function CurrentPrice(): (price: real)
      reads this
      ensures selectedSecurity.None? ==> price == 0.0
      ensures selectedSecurity.Some? ==> price == selectedSecurity.value.price
    {
      if selectedSecurity.Some? then selectedSecurity.value.price else 0.0
    }

    /** The initialisation effect, run whenever the selected security changes. */
    method InitAllocations()
      requires |brokers| > 0
      modifies this
      ensures State() == old(State()).(allocations := InitialAllocations(brokers, selectedSecurity, prefill, shares, principal))
      ensures Consistent() && NonNegative() && Balanced()
    {
      allocations := InitialAllocations(brokers, selectedSecurity, prefill, shares, principal);
      if selectedSecurity.Some? {
        InitialAllocationsSumTo100(brokers, selectedSecurity, prefill, shares, principal);
      }
    }

    /** The quantity callbacks set shares and principal; then the rescale effect
        recomputes every allocation from its percentage. */
    method SetQuantity(newShares: real, newPrincipal: real)
      modifies this
      ensures State() == old(State()).(shares := newShares, principal := newPrincipal,
                                       allocations := RecomputeAmounts(old(allocations), newShares, newPrincipal))
      ensures Consistent()
      ensures old(NonNegative()) ==> NonNegative()
      ensures old(Balanced()) ==> Balanced()
    {
      shares := newShares;
      principal := newPrincipal;
      if |allocations| != 0 {
        allocations := RecomputeAmounts(allocations, newShares, newPrincipal);
      } else {
        assert RecomputeAmounts(allocations, newShares, newPrincipal) == [];
      }
      assert Percentages(allocations) == Percentages(old(allocations));
    }

    /** `handlePresetChange`: the preset id is always recorded; 'manual' and empty
        presets keep the current allocations, any other preset replaces them. */
    method HandlePresetChange(preset: AllocationPreset)
      modifies this
      ensures preset.id == Manual || preset.allocations == [] ==> State() == old(State()).(presetId := preset.id)
      ensures preset.id != Manual && preset.allocations != [] ==>
        State() == old(State()).(presetId := preset.id, allocations := PresetAllocations(brokers, preset, shares, principal))
      ensures old(Consistent()) ==> Consistent()
      ensures preset in OrdersMockData.AllocationPresets && old(Balanced()) ==> Balanced()
      ensures preset in OrdersMockData.AllocationPresets && old(NonNegative()) ==> NonNegative()
    {
      presetId := preset.id;
      if preset.id == Manual || |preset.allocations| == 0 {
        return;
      }
      allocations := PresetAllocations(brokers, preset, shares, principal);
      if preset in OrdersMockData.AllocationPresets {
        TablePresetsAreBalanced(brokers, preset, shares, principal);
      }
    }

    /** `handleSecurityChange`: both trigger prices start at the security's price. */
    method HandleSecurityChange(security: SecurityPrice)
      modifies this
      ensures State() == old(State()).(selectedSecurity := Some(security),
                                       limitPrice := Some(security.price), stopPrice := Some(security.price))
    {
      selectedSecurity := Some(security);
      limitPrice := Some(security.price);
      stopPrice := Some(security.price);
    }

    method SetSide(s: OrderSide)
      modifies this
      ensures State() == old(State()).(side := s)
    {
      side := s;
    }

    method SetOrderType(t: OrderType)
      modifies this
      ensures State() == old(State()).(orderType := t)
    {
      orderType := t;
    }

    /** The limit price field, given what `parseFloat` made of the text. */
    method SetLimitPriceInput(parsed: Option<real>)
      modifies this
      ensures State() == old(State()).(limitPrice := PriceInput(parsed))
    {
      limitPrice := PriceInput(parsed);
    }

    method SetStopPriceInput(parsed: Option<real>)
      modifies this
      ensures State() == old(State()).(stopPrice := PriceInput(parsed))
    {
      stopPrice := PriceInput(parsed);
    }

    /** The allocator's `onChange`: one account's percentage edited. A single account
        keeps 100%; otherwise the others absorb the change and the list is normalised,
        and an edit of a balanced list that floors no account lands exactly. */
    method EditPercentage(index: int, newPercentage: real)
      requires 0 <= index < |allocations|
      modifies this
      ensures State() == old(State()).(allocations := allocations)
      ensures |allocations| == old(|allocations|)
      ensures forall i :: 0 <= i < |allocations| ==> SameAccount(allocations[i], old(allocations[i]))
      ensures old(|allocations|) == 1 ==> allocations == [AccountAllocator.WithPercentage(old(allocations[0]), 100.0, shares, principal)]
      ensures old(|allocations|) > 1 ==>
        allocations == AccountAllocator.Normalized(AccountAllocator.Redistribute(old(allocations), index, newPercentage, shares, principal), shares, principal)
      ensures old(|allocations|) > 1 && old(TotalPercentage(allocations)) == 100.0 &&
              old(AccountAllocator.NoFloorHit(allocations, index, newPercentage)) ==>
        allocations[index].percentage == AccountAllocator.ClampPercentage(newPercentage)
      ensures Consistent() && NonNegative() && Balanced()
    {
      allocations := AccountAllocator.HandlePercentageChange(allocations, index, newPercentage, shares, principal);
    }

    function FormData(): (d: OrderFormData)
      reads this
    {
      BuildFormData(selectedSecurity, side, orderType, shares, principal, limitPrice, stopPrice, allocations, presetId)
    }

    function IsValid(): bool
      reads this
    {
      IsValidOrder(selectedSecurity, shares, allocations, orderType, limitPrice, stopPrice)
    }

    /** `handleSubmit`: the order handed to `onSubmit`, if any. A submitted order always
        has a summary to show. */
    method HandleSubmit() returns (submitted: Option<OrderFormData>)
      ensures submitted.Some? <==> IsValid()
      ensures submitted.Some? ==> submitted.value == FormData()
      ensures submitted.Some? ==> submitted.value.shares > 0.0 && |submitted.value.allocations| > 0
      ensures submitted.Some? ==> OrderSummary.HasValidOrder(OrderSummary.Summarize(submitted.value))
      ensures submitted.Some? && orderType == Limit ==> submitted.value.limitPrice.Some? && submitted.value.limitPrice.value > 0.0
      ensures submitted.Some? && orderType == Stop ==> submitted.value.stopPrice.Some? && submitted.value.stopPrice.value > 0.0
    {
      if IsValid() {
        submitted := Some(FormData());
      } else {
        submitted := None;
      }
    }
  }
}
