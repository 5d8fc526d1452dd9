# Investment platform dashboard: a verified model of its rules

The dashboard is a client-only React application over mock data. Most of its files only
render. This project models the deterministic rules inside its utilities, hooks and
component handlers, and proves what they promise:

- **Order entry.** Broker commission bands, security lookup and search. The multi-account
  allocator, which keeps the percentages adding up to 100. The order summary's totals. The
  order form's allocation set-up, presets, rescaling and validity gate. The linked
  shares/principal boxes. The symbol search drop-down and its keys.
- **Markets.** The discrete skeleton of the synthetic index series: durations, the seeded
  31-bit linear congruential generator, point budgets, the stepping interval, weekends, the
  intraday grid, OHLC bounds and the period change. The FOMC dot plot's statistics. The
  capped index selections. The duration picker. News filtering and paging. The relative age
  of a news card.
- **Portfolio and predictions.** Tax-lot summaries. Bento card ordering. Prediction
  filtering, sorting and counting. The signal card's range and colour rules. Sector bar
  widths. The animated-number hook's easing and compact formatting.

Each source file is one Dafny module. Data that React holds as state and updates in
handlers becomes a `class`: `OrderForm`, `QuantityInput`, `SymbolSearch`, `IndicesTab`,
`DurationSelector`, `NewsTab`, `Animation`, and `Rng` (the `seededRandom` closure). Those
classes have methods with `modifies` clauses. Pure computations (memos, helpers, utilities)
become functions, and lemmas state their properties. Loops over mutable arrays, such as the
allocator's normalisation `forEach`, the series loops, the dot-plot expansion and the sorts,
are methods with loop invariants. Every `Array.prototype.sort` with a comparator is
`Sorting.SortBy`, an in-place insertion sort over an `array`. It is proved to return a
stable sorted permutation for any comparator that is a total preorder.

Amounts, percentages and prices are `real`. Timestamps and counts are `int`. Strings are
`seq<char>`. Some library calls are not part of the model: `Date`, `toFixed`,
`parseFloat`, `Math.pow` and `localeCompare`. Where such a call matters, its result is a
parameter, or an abstract value such as a `Text` that records "this number printed with
`toFixed(2)`".

Files: `prelude.dfy` (Option, Math helpers, sums, filters, subsequences, ASCII case
mapping), `sorting.dfy`, `order_types.dfy`, `market_types.dfy`, `prediction_types.dfy`,
and one file per source file named after it.

## Model

Source paths are relative to the repository root.

| member | source | states |
|---|---|---|
| OrdersMockData.GetSecurityPrice | investment_platform-dashboard/src/utils/ordersMockData.ts:76-78 | The result is the first table entry whose symbol equals the argument ignoring case; `None` exactly when no entry matches. |
| OrdersMockData.SearchSecurities | investment_platform-dashboard/src/utils/ordersMockData.ts:81-88 | An empty query gives no results. Otherwise the results are exactly the first 8 matching entries in table order (all of them when there are fewer): the table filtered by the lower-cased query, then cut to 8. Each result contains the lower-cased query in its symbol or name. |
| OrdersMockData.SearchTable | investment_platform-dashboard/src/utils/ordersMockData.ts:81-88 | The same search over any table: empty for an empty query, otherwise the first 8 matching entries in table order, each a match, and no match left out below the cap. |
| OrdersMockData.Matching | investment_platform-dashboard/src/utils/ordersMockData.ts:84-87 | The filter step of the search: an entry is kept exactly when it matches the lower-cased query. |
| OrdersMockData.MatchesQuery | investment_platform-dashboard/src/utils/ordersMockData.ts:85-86 | The empty query matches every entry. A matching query is no longer than the entry's symbol or its name. |
| OrdersMockData.GetAllocationPreset | investment_platform-dashboard/src/utils/ordersMockData.ts:91-93 | Returns a preset of the table with that id, or `None` exactly when no preset has it. |
| OrdersMockData.PresetsSumTo100 | investment_platform-dashboard/src/utils/ordersMockData.ts:5-42 | The 'manual' preset has no allocations. Every other preset's percentages add up to exactly 100, as the type's field comment requires (types/orders.ts:16). |
| OrdersMockData.PresetsNonNegative | investment_platform-dashboard/src/utils/ordersMockData.ts:5-42 | No preset gives an account a negative percentage. |
| OrdersMockData.CalculateCommission | investment_platform-dashboard/src/utils/ordersMockData.ts:109-115 | 0 for a broker not in the table (own keys only, see Left out). For a table broker the result is shares × perShare clamped to the broker's band: max(minimum, min(maximum, shares × perShare)). So it lies in [minimum, maximum], equals the product when that is inside the band, and is never negative. |
| OrdersMockData.BrokerCommission | investment_platform-dashboard/src/utils/ordersMockData.ts:96-106 | Every rate in the table has a non-negative per-share rate and minimum. A broker with no per-share rate charges a flat fee: its minimum equals its maximum. |
| OrdersMockData.CommissionBandsWellFormed | investment_platform-dashboard/src/utils/ordersMockData.ts:96-106 | For every broker in the table, 0 ≤ minimum ≤ maximum. |
| OrdersMockData.FlatFeeBrokers | investment_platform-dashboard/src/utils/ordersMockData.ts:98-114 | degiro charges exactly 0.50 and bullionvault exactly 5.00, whatever the share count. |
| AccountAllocator.ClampPercentage | investment_platform-dashboard/src/components/orders/AccountAllocator.tsx:19 | The result is in [0, 100]. A value already in range is kept, a negative value becomes 0 and a value above 100 becomes 100. |
| AccountAllocator.WithPercentage | investment_platform-dashboard/src/components/orders/AccountAllocator.tsx:43-49 | The account is unchanged apart from its amounts. The new percentage is the given one, and its shares and principal are that percentage of the order totals. |
| AccountAllocator.OtherTotalIsRest | investment_platform-dashboard/src/components/orders/AccountAllocator.tsx:39-40 | The total of the other accounts is the overall total minus the edited account's percentage. |
| AccountAllocator.AbsorbedTotal | investment_platform-dashboard/src/components/orders/AccountAllocator.tsx:52-53 | When the weights add up to 1, moving every account by its weight times the difference lowers the total by exactly the difference. |
| AccountAllocator.Redistribute | investment_platform-dashboard/src/components/orders/AccountAllocator.tsx:42-61 | Length and accounts are kept, and every account carries its percentage of the totals. The edited account takes the clamped value. Every other account takes its old percentage minus its share of the difference, floored at 0. No percentage is negative. |
| AccountAllocator.Proportion | investment_platform-dashboard/src/components/orders/AccountAllocator.tsx:52 | An account's share of the difference is never negative when the percentages are not. |
| AccountAllocator.Shifted | investment_platform-dashboard/src/components/orders/AccountAllocator.tsx:52-53 | With non-negative percentages, raising the edited account never raises another account's share, and lowering it never lowers one. |
| AccountAllocator.Normalized | investment_platform-dashboard/src/components/orders/AccountAllocator.tsx:63-71 | The same accounts in the same order. A list whose total is already 100, or not positive, is left as it is. |
| AccountAllocator.Rescaled | investment_platform-dashboard/src/components/orders/AccountAllocator.tsx:66-71 | Every account is rescaled by the factor, in order, with its amounts recomputed. |
| AccountAllocator.NormalizedSumsTo100 | investment_platform-dashboard/src/components/orders/AccountAllocator.tsx:63-72 | Normalising a list whose total is positive leaves percentages that add up to exactly 100. |
| AccountAllocator.Normalize | investment_platform-dashboard/src/components/orders/AccountAllocator.tsx:63-72 | The in-place normalisation loop leaves the array equal to the normalised list: rescaled by 100/total when the total is positive and not already 100, otherwise unchanged. |
| AccountAllocator.HandlePercentageChange | investment_platform-dashboard/src/components/orders/AccountAllocator.tsx:21-73 | One account: the result is that account alone at 100% with the full shares and principal. Several accounts: the result is the normalised redistribution. Either way the accounts and length are kept, amounts are proportional and percentages are non-negative. The total is 100, or every percentage is 0. A balanced list with no account floored keeps exactly the clamped value for the edited account. |
| AccountAllocator.NormalizedKeepsAccounts | investment_platform-dashboard/src/components/orders/AccountAllocator.tsx:63-72 | Normalising non-negative, proportional allocations keeps the accounts, the proportions and the signs. It reaches a total of 100, or leaves only zero percentages. |
| AccountAllocator.Weights | investment_platform-dashboard/src/components/orders/AccountAllocator.tsx:51-53 | The edited account's weight is 0. Every other account's weight is its percentage over the others' total, or 1/(n−1) when that total is 0. |
| AccountAllocator.WeightsSumToOne | investment_platform-dashboard/src/components/orders/AccountAllocator.tsx:51-53 | The weights with which the other accounts absorb the difference add up to 1. |
| AccountAllocator.ProportionalWeights | investment_platform-dashboard/src/components/orders/AccountAllocator.tsx:52 | Weights x[i]/T over all indices but one, with T the sum of those x[i], add up to 1. |
| AccountAllocator.UniformWeights | investment_platform-dashboard/src/components/orders/AccountAllocator.tsx:52 | The equal share 1/(n−1) over all indices but one adds up to 1. |
| AccountAllocator.RedistributeKeepsTotal | investment_platform-dashboard/src/components/orders/AccountAllocator.tsx:42-61 | When no other account hits the floor at 0, redistribution leaves the total unchanged. |
| AccountAllocator.RedistributedPercentages | investment_platform-dashboard/src/components/orders/AccountAllocator.tsx:42-61 | Without the floor, the redistributed percentages are the shifted ones, with the clamped value at the edited index. |
| AccountAllocator.BalancedEditNeedsNoRescale | investment_platform-dashboard/src/components/orders/AccountAllocator.tsx:42-65 | If the total was 100 and no account hits the floor, the total stays 100, normalisation changes nothing, and the edited account ends at exactly the clamped value. |
| AccountAllocator.TotalRowPercent | investment_platform-dashboard/src/components/orders/AccountAllocator.tsx:145 | A list that adds up to 100 shows 100 in the total row. |
| OrderSummary.WithCommission | investment_platform-dashboard/src/components/orders/OrderSummary.tsx:21-23 | A buy pays the commission on top of the principal; a sell receives the principal less the commission. |
| OrderSummary.SummarizeAccount | investment_platform-dashboard/src/components/orders/OrderSummary.tsx:16-24 | The account's commission is the broker's commission on that account's shares, and it is non-negative. Its total is the principal plus the commission for a buy and the principal minus the commission for a sell. So it is at least the principal for a buy and at most the principal for a sell. |
| OrderSummary.Summarize | investment_platform-dashboard/src/components/orders/OrderSummary.tsx:12-39 | There is one row per allocation, in order. The total commission is the sum of the rows' commissions and is non-negative. The estimated total is the order principal plus it for a buy and minus it for a sell. Shares and principal are passed through. |
| OrderSummary.HasValidOrder | investment_platform-dashboard/src/components/orders/OrderSummary.tsx:41 | The summary shows an order only with a positive share count and at least one account. Without either it shows the empty state. |
| OrderSummary.ShowsBreakdown | investment_platform-dashboard/src/components/orders/OrderSummary.tsx:58 | The per-account breakdown appears only with two or more accounts. With a positive share count it never appears without a valid order. |
| OrderSummary.EstimatedTotalIsSumOfAccountTotals | investment_platform-dashboard/src/components/orders/OrderSummary.tsx:21-30 | When the account principals add up to the order principal, the estimated total equals the sum of the account totals. |
| OrderSummary.BalancedPrincipalsSumToOrder | investment_platform-dashboard/src/components/orders/OrderSummary.tsx:28-30 | Proportional allocations whose percentages add up to 100 have principals that add up to the order principal. |
| OrderSummary.PercentOfIsScaling | investment_platform-dashboard/src/components/orders/OrderForm.tsx:90-91 | `pct / 100 * total` is the percentage times a hundredth of the total. |
| OrderSummary.SummaryGates | investment_platform-dashboard/src/components/orders/OrderSummary.tsx:41-58 | The summary is shown exactly when shares > 0 and there is an allocation. The breakdown is shown exactly when there is more than one account. |
| OrderForm.OrElse | investment_platform-dashboard/src/components/orders/OrderForm.tsx:59-60 | `a \|\| b` on strings: `a` unless it is empty, then `b`. |
| OrderForm.FindBroker | investment_platform-dashboard/src/components/orders/OrderForm.tsx:54 | Returns a broker of the list with that id, or `None` exactly when none has it. |
| OrderForm.PrefillAllocation | investment_platform-dashboard/src/components/orders/OrderForm.tsx:53-66 | A prefilled account keeps its ids and account type and gets the given percentage, with amounts proportional to the totals. |
| OrderForm.DefaultAllocation | investment_platform-dashboard/src/components/orders/OrderForm.tsx:69-80 | The default is the first broker's margin account, with 100% and the full shares and principal. |
| OrderForm.InitialAllocations | investment_platform-dashboard/src/components/orders/OrderForm.tsx:45-82 | No security gives no allocations. n prefill accounts each get 100/n percent, in order. Otherwise there is one 100% margin allocation at the first broker. Every allocation is proportional and non-negative. |
| OrderForm.InitialAllocationsSumTo100 | investment_platform-dashboard/src/components/orders/OrderForm.tsx:45-82 | Whenever a security is selected, the initial allocations add up to 100%. |
| OrderForm.EqualSplitSumsTo100 | investment_platform-dashboard/src/components/orders/OrderForm.tsx:55 | n accounts holding 100/n percent each hold 100% together. |
| OrderForm.PresetAllocation | investment_platform-dashboard/src/components/orders/OrderForm.tsx:104-116 | A preset entry becomes a margin allocation with the entry's ids and percentage, and amounts proportional to the current totals. |
| OrderForm.PresetAllocations | investment_platform-dashboard/src/components/orders/OrderForm.tsx:104-117 | A preset is applied entry for entry, and the percentages are exactly the preset's. |
| OrderForm.TablePresetsAreBalanced | investment_platform-dashboard/src/components/orders/OrderForm.tsx:104-117 | Applying any non-manual preset of the table gives non-negative percentages that add up to 100. |
| OrderForm.RecomputeAmounts | investment_platform-dashboard/src/components/orders/OrderForm.tsx:85-93 | Rescaling keeps the length, the accounts and every percentage, and makes every allocation proportional to the new totals. |
| OrderForm.BuildFormData | investment_platform-dashboard/src/components/orders/OrderForm.tsx:128-140 | A limit price is carried only by a limit order and a stop price only by a stop order. `usePreset` holds exactly when the preset is not 'manual', and the preset id is carried exactly then. Symbol and name come from the selected security, or are empty without one. |
| OrderForm.IsValidOrder | investment_platform-dashboard/src/components/orders/OrderForm.tsx:143-150 | Valid exactly when a security is selected, shares > 0 and there is an allocation, and a limit or stop order also has a positive price of its kind. |
| OrderForm.PriceInput | investment_platform-dashboard/src/components/orders/OrderForm.tsx:219 | `parseFloat(text) \|\| undefined`: text that does not parse, and 0, both give no price. |
| OrderForm.OrderForm.constructor | investment_platform-dashboard/src/components/orders/OrderForm.tsx:29-82 | The initial state (the prefill's security and side, a market order, zero amounts, no prices, 'manual'), then the initialisation effect. The form starts consistent, non-negative and balanced. |
| OrderForm.OrderForm.CurrentPrice | investment_platform-dashboard/src/components/orders/OrderForm.tsx:42 | The selected security's price, or 0 without one. |
| OrderForm.OrderForm.InitAllocations | investment_platform-dashboard/src/components/orders/OrderForm.tsx:45-82 | Only the allocations change, to the initial allocations. Afterwards the form is consistent, non-negative and balanced. |
| OrderForm.OrderForm.SetQuantity | investment_platform-dashboard/src/components/orders/OrderForm.tsx:85-93 | New shares and principal, with every allocation recomputed from its unchanged percentage. Consistency holds afterwards, and non-negativity and balance are preserved. |
| OrderForm.OrderForm.HandlePresetChange | investment_platform-dashboard/src/components/orders/OrderForm.tsx:96-118 | The preset id is always recorded. 'manual' or an empty preset leaves the allocations as they were. Any other preset replaces them entry for entry. Consistency is kept, and a table preset keeps the form balanced and non-negative. |
| OrderForm.OrderForm.HandleSecurityChange | investment_platform-dashboard/src/components/orders/OrderForm.tsx:121-125 | The security is selected, and both the limit and the stop price become its price. |
| OrderForm.OrderForm.SetSide | investment_platform-dashboard/src/components/orders/OrderForm.tsx:174-184 | Only the side changes. |
| OrderForm.OrderForm.SetOrderType | investment_platform-dashboard/src/components/orders/OrderForm.tsx:196 | Only the order type changes. |
| OrderForm.OrderForm.SetLimitPriceInput | investment_platform-dashboard/src/components/orders/OrderForm.tsx:219 | Only the limit price changes, to the parsed input or nothing. |
| OrderForm.OrderForm.SetStopPriceInput | investment_platform-dashboard/src/components/orders/OrderForm.tsx:237 | Only the stop price changes, to the parsed input or nothing. |
| OrderForm.OrderForm.EditPercentage | investment_platform-dashboard/src/components/orders/OrderForm.tsx:256 | The allocator's result replaces the allocations: same length and accounts, consistent, non-negative and balanced. |
| OrderForm.OrderForm.HandleSubmit | investment_platform-dashboard/src/components/orders/OrderForm.tsx:152-156 | An order is submitted exactly when the form is valid, and it is the form data. It has positive shares and at least one allocation, so its summary is shown. A limit or stop order carries a positive price of its kind. |
| QuantityInput.ParsedOrZero | investment_platform-dashboard/src/components/orders/QuantityInput.tsx:37 | Text that does not parse counts as 0; otherwise the parsed number. |
| QuantityInput.Display | investment_platform-dashboard/src/components/orders/QuantityInput.tsx:26-29 | A positive amount is shown in the given format; an amount ≤ 0 is an empty box. |
| QuantityInput.SharesFor | investment_platform-dashboard/src/components/orders/QuantityInput.tsx:54 | With a positive price, shares × price is the principal; otherwise 0 shares. |
| QuantityInput.AfterSharesTyped | investment_platform-dashboard/src/components/orders/QuantityInput.tsx:33-44 | The typed text is kept and the shares box becomes the last edited. Shares are the parsed number (0 if unparsable), principal is shares × price, and the principal box shows it to two decimals or is empty. |
| QuantityInput.AfterPrincipalTyped | investment_platform-dashboard/src/components/orders/QuantityInput.tsx:46-57 | The typed text is kept and the principal box becomes the last edited. Principal is the parsed number. Shares × price is the principal for a positive price, and shares are 0 otherwise. The shares box shows them to four trimmed decimals, or is empty. |
| QuantityInput.SyncedAsWritten | investment_platform-dashboard/src/components/orders/QuantityInput.tsx:24-31 | The sync effect as written never touches the box edited last. It overwrites the other box: shares with `toString()`, principal with two decimals, empty when ≤ 0. |
| QuantityInput.Synced | investment_platform-dashboard/src/components/orders/QuantityInput.tsx:24-31 | The sync effect, with the share count printed as the principal handler prints it. It never touches the box edited last, and a non-positive amount is shown as an empty box. |
| QuantityInput.SyncAfterTypingIsStable | investment_platform-dashboard/src/components/orders/QuantityInput.tsx:24-57 | After either keystroke, the (corrected) sync effect changes nothing. |
| QuantityInput.SyncAsWrittenReformatsShares | investment_platform-dashboard/src/components/orders/QuantityInput.tsx:26 | As written, the effect replaces the 4-decimal share text after typing 10 into the principal box at price 3, so the boxes change after the keystroke. |
| QuantityInput.HandlersAreInverse | investment_platform-dashboard/src/components/orders/QuantityInput.tsx:41-54 | With a positive price, typing the principal computed from a share count gives that share count back. |
| QuantityInput.QuantityInput.constructor | investment_platform-dashboard/src/components/orders/QuantityInput.tsx:19-31 | Shares are printed with `toString()` and the shares box is the last edited. The mount-time effect leaves the principal box at two decimals, or empty for 0. |
| QuantityInput.QuantityInput.HandleSharesChange | investment_platform-dashboard/src/components/orders/QuantityInput.tsx:33-44 | The component's state becomes `AfterSharesTyped` of the old state. |
| QuantityInput.QuantityInput.HandlePrincipalChange | investment_platform-dashboard/src/components/orders/QuantityInput.tsx:46-57 | The component's state becomes `AfterPrincipalTyped` of the old state. |
| QuantityInput.QuantityInput.SetProps | investment_platform-dashboard/src/components/orders/QuantityInput.tsx:12-16 | Only the amounts and the price from the parent change. |
| QuantityInput.QuantityInput.SyncFromProps | investment_platform-dashboard/src/components/orders/QuantityInput.tsx:24-31 | The effect as the source writes it: the state becomes `SyncedAsWritten` of the old state (shares printed with `toString()`), and the price is unchanged. `Synced` is the corrected effect. |
| SymbolSearch.SearchOutcome | investment_platform-dashboard/src/components/orders/SymbolSearch.tsx:23-33 | An enabled non-empty query loads the search results, opens the list exactly when there are any, and resets the highlight. An empty query or a disabled box clears and closes the list and leaves the highlight. |
| SymbolSearch.OwnSymbolIsFound | investment_platform-dashboard/src/components/orders/SymbolSearch.tsx:24-27 | Searching for a listed security's own symbol finds something. |
| SymbolSearch.SymbolSearch.constructor | investment_platform-dashboard/src/components/orders/SymbolSearch.tsx:15-33 | The query starts as the `value` prop and the search effect runs once. The list is open only with results, and the highlight is inside them. |
| SymbolSearch.SymbolSearch.SearchEffect | investment_platform-dashboard/src/components/orders/SymbolSearch.tsx:23-33 | Results and openness become the search outcome of the query, and the highlight is reset exactly when the outcome says so. The invariant (open only with results, highlight in range) holds afterwards. |
| SymbolSearch.SymbolSearch.HandleInput | investment_platform-dashboard/src/components/orders/SymbolSearch.tsx:88 | The text becomes the query. A changed query reruns the search, an unchanged one changes nothing else, and the invariant is kept. |
| SymbolSearch.SymbolSearch.HandleFocus | investment_platform-dashboard/src/components/orders/SymbolSearch.tsx:89 | Focus opens the list exactly when it has a query and results (or was open), and changes nothing else. |
| SymbolSearch.SymbolSearch.HandleClickOutside | investment_platform-dashboard/src/components/orders/SymbolSearch.tsx:36-44 | The list closes and nothing else changes. |
| SymbolSearch.SymbolSearch.SetDisabled | investment_platform-dashboard/src/components/orders/SymbolSearch.tsx:23-33 | A changed `disabled` prop reruns the search effect, which empties and closes the list when the box is disabled. An unchanged one changes nothing. |
| SymbolSearch.SymbolSearch.HandleSelect | investment_platform-dashboard/src/components/orders/SymbolSearch.tsx:46-50 | The security goes to the parent, its symbol becomes the query, and the list closes. If the symbol differs from the old query, the search effect then reruns on it. For a listed security with a non-empty symbol in an enabled box, that reopens the list. The invariant is kept. |
| SymbolSearch.SymbolSearch.HandleKeyDown | investment_platform-dashboard/src/components/orders/SymbolSearch.tsx:52-74 | Keys are ignored while the list is closed. ArrowDown sets the highlight to min(h+1, len−1) and ArrowUp to max(h−1, 0). Enter selects the highlighted result only if it exists; the selection then reruns the search if the query changed, or leaves the list closed. Escape closes without selecting. The open-list invariant is kept. |
| MarketsMockData.DurationDays | investment_platform-dashboard/src/utils/marketsMockData.ts:59-70 | Every duration has a positive number of days, and 'custom' falls to 30. |
| MarketsMockData.DurationDaysIncrease | investment_platform-dashboard/src/utils/marketsMockData.ts:59-70 | 1D < 1W < 1M < 6M < 1Y < 2Y < 5Y in days (1, 7, 30, 180, 365, 730, 1825). |
| MarketsMockData.EveryIndexHasCharacteristics | investment_platform-dashboard/src/utils/marketsMockData.ts:40-54 | Every quoted index has an entry of its own in the characteristics table. |
| MarketsMockData.Characteristics | investment_platform-dashboard/src/utils/marketsMockData.ts:79-83 | The table entry, or {0.08, 0.15, 1000} for an id that is not an own key of the table; the base value and volatility are positive. |
| MarketsMockData.CharCodeSumAppend | investment_platform-dashboard/src/utils/marketsMockData.ts:101 | The char-code sum of a concatenation is the sum of the parts' sums. |
| MarketsMockData.SeedIgnoresOrder | investment_platform-dashboard/src/utils/marketsMockData.ts:101 | The seed depends only on the characters and the end day, not their order: moving a character to the front keeps it. |
| MarketsMockData.CharCodeSum | investment_platform-dashboard/src/utils/marketsMockData.ts:101 | The sum of the empty id is 0, and the sum is at least the code of each character. |
| MarketsMockData.Seed | investment_platform-dashboard/src/utils/marketsMockData.ts:101 | The seed is at least the end date's day of month, and exactly that day for an empty id. It is at least the code of any character of the id plus that day. |
| MarketsMockData.CharCodeSumOrderFree | investment_platform-dashboard/src/utils/marketsMockData.ts:101 | Strings with the same characters, in any order, have the same char-code sum. |
| MarketsMockData.AnagramsShareSeed | investment_platform-dashboard/src/utils/marketsMockData.ts:101 | Index ids that are anagrams of each other get the same seed for the same day, and so the same series. |
| MarketsMockData.Step | investment_platform-dashboard/src/utils/marketsMockData.ts:11 | One generator step keeps the state in [0, 2^31 − 1]. |
| MarketsMockData.Draws | investment_platform-dashboard/src/utils/marketsMockData.ts:9-13 | The first n draws of a seed: n values, each in [0, 1], fixed by the seed alone. |
| MarketsMockData.DrawsPrefix | investment_platform-dashboard/src/utils/marketsMockData.ts:9-13 | Fewer draws from the same seed are a prefix of more draws: equal seeds give equal sequences. |
| MarketsMockData.Rng.constructor | investment_platform-dashboard/src/utils/marketsMockData.ts:9 | The generator starts at the seed with nothing drawn. |
| MarketsMockData.Rng.Next | investment_platform-dashboard/src/utils/marketsMockData.ts:10-13 | One call advances the state by one step, keeps it in [0, 2^31 − 1], and returns state / (2^31 − 1) in [0, 1]. That value is the next element of the seed's draw sequence. |
| MarketsMockData.DaysBetween | investment_platform-dashboard/src/utils/marketsMockData.ts:91 | The whole days between two instants, rounded up: the smallest count of days covering the gap. |
| MarketsMockData.PointBudget | investment_platform-dashboard/src/utils/marketsMockData.ts:89-98 | A custom range with a start date gets min(days between, 1825) points. 1D gets 78. Every other duration gets its number of days. |
| MarketsMockData.WalkLength | investment_platform-dashboard/src/utils/marketsMockData.ts:108 | The walk length is positive, and 'custom' falls to 30 whatever the dates. |
| MarketsMockData.StepInterval | investment_platform-dashboard/src/utils/marketsMockData.ts:132 | The interval is max(1, ⌊totalDays / min(points, 500)⌋) for a positive budget and at least 1 days. It is Infinity exactly for a budget of 0, and 1 for a negative budget. |
| MarketsMockData.FixedDurationIntervals | investment_platform-dashboard/src/utils/marketsMockData.ts:94-132 | Every fixed duration except 5Y steps one day at a time; 5Y steps every 3 days. |
| MarketsMockData.Weekday | investment_platform-dashboard/src/utils/marketsMockData.ts:135-139 | The weekday of a day offset is in 0..6. |
| MarketsMockData.Stride | investment_platform-dashboard/src/utils/marketsMockData.ts:134 | The loop's step is at least 1, and an infinite interval steps past the end after the first visit. |
| MarketsMockData.GridShift | investment_platform-dashboard/src/utils/marketsMockData.ts:134 | The grid from the next visit is the same grid one step further along. |
| MarketsMockData.Visits | investment_platform-dashboard/src/utils/marketsMockData.ts:134 | Every visited day lies between the start and the walk's end. |
| MarketsMockData.VisitsAreGrid | investment_platform-dashboard/src/utils/marketsMockData.ts:134 | The visits are exactly the grid points start + k·step up to the end, in strictly increasing order. |
| MarketsMockData.FilterKeepsIncreasing | investment_platform-dashboard/src/utils/marketsMockData.ts:139 | Dropping days from an increasing list keeps it increasing. |
| MarketsMockData.WeekdayUnfold | investment_platform-dashboard/src/utils/marketsMockData.ts:134-139 | A weekday visit emits its day, then the trading days after it. |
| MarketsMockData.WeekendUnfold | investment_platform-dashboard/src/utils/marketsMockData.ts:139 | A weekend visit emits nothing before the trading days after it. |
| MarketsMockData.TradingDaysPast | investment_platform-dashboard/src/utils/marketsMockData.ts:134 | Past the end of the walk nothing is emitted. |
| MarketsMockData.TradingDays | investment_platform-dashboard/src/utils/marketsMockData.ts:134-139 | The daily points are exactly the visited offsets that do not fall on a weekend. |
| MarketsMockData.DrawDailyBar | investment_platform-dashboard/src/utils/marketsMockData.ts:141-148 | A daily point takes exactly four draws (change, open, high, low), each in [0, 1]. |
| MarketsMockData.DailyOffsets | investment_platform-dashboard/src/utils/marketsMockData.ts:130-164 | The daily loop emits exactly the trading days of the grid and takes four draws per emitted point. |
| MarketsMockData.DailyOffsetsAreTradingDays | investment_platform-dashboard/src/utils/marketsMockData.ts:132-139 | The daily points fall on weekdays within the walk, in increasing order, and no weekday grid point is missed. |
| MarketsMockData.IntradayTimestamps | investment_platform-dashboard/src/utils/marketsMockData.ts:111-129 | The intraday loop emits 78 timestamps, 5 minutes apart from the market open, taking one draw each. |
| MarketsMockData.GenerateIndexTimeSeries | investment_platform-dashboard/src/utils/marketsMockData.ts:73-167 | The generator is seeded with the char-code sum plus the end day. 1D gives the 78-point intraday series and every other duration a daily one. A daily series follows the duration's walk, or for a custom range the 30-day walk with the capped point budget. The draws taken match the points. |
| MarketsMockData.OhlcBounds | investment_platform-dashboard/src/utils/marketsMockData.ts:145-148 | For positive prices, before rounding, the high is at least the open and the close, and the low at most both. |
| MarketsMockData.PeriodChangeOf | investment_platform-dashboard/src/utils/marketsMockData.ts:170-188 | Fewer than two points give {0, 0}. Otherwise the change is the rounded last minus first, and the percentage is the rounded change over first × 100; a first value of 0 gives no finite percentage. |
| MarketsMockData.PeriodChangeSigns | investment_platform-dashboard/src/utils/marketsMockData.ts:177-187 | With a positive first value, the change and its percentage never disagree in sign. |
| MarketsMockData.Round2NonNegative | investment_platform-dashboard/src/utils/marketsMockData.ts:185-186 | Rounding to cents keeps a non-negative value non-negative. |
| MarketsMockData.Round2NonPositive | investment_platform-dashboard/src/utils/marketsMockData.ts:185-186 | Rounding to cents keeps a non-positive value non-positive. |
| DotPlotChart.InsertYear | investment_platform-dashboard/src/components/markets/economic/DotPlotChart.tsx:42 | Inserting into a strictly ascending list keeps it strictly ascending, and adds exactly the new year. |
| DotPlotChart.UniqueYears | investment_platform-dashboard/src/components/markets/economic/DotPlotChart.tsx:42 | The years are strictly ascending (sorted, no duplicates) and are exactly the years present in the data. |
| DotPlotChart.MinRate | investment_platform-dashboard/src/components/markets/economic/DotPlotChart.tsx:46 | The smallest projected rate: at most every rate, and one of them. |
| DotPlotChart.MaxRate | investment_platform-dashboard/src/components/markets/economic/DotPlotChart.tsx:47 | The largest projected rate: at least every rate, and one of them. |
| DotPlotChart.FloorQuarter | investment_platform-dashboard/src/components/markets/economic/DotPlotChart.tsx:50 | The largest quarter point at or below the value. |
| DotPlotChart.CeilQuarter | investment_platform-dashboard/src/components/markets/economic/DotPlotChart.tsx:51 | The smallest quarter point at or above the value. |
| DotPlotChart.YDomain | investment_platform-dashboard/src/components/markets/economic/DotPlotChart.tsx:45-52 | No domain without data. Otherwise the bounds are the largest quarter ≤ min − 0.25 and the smallest quarter ≥ max + 0.25. |
| DotPlotChart.RatesInsideYDomain | investment_platform-dashboard/src/components/markets/economic/DotPlotChart.tsx:45-52 | Every projected rate lies at least a quarter point inside the y-domain. |
| DotPlotChart.XDomain | investment_platform-dashboard/src/components/markets/economic/DotPlotChart.tsx:99-104 | [2024, 2030] without years. Otherwise every year lies in [first − 0.5, last + 0.5], and both ends are half a year from a year. |
| DotPlotChart.DotsOf | investment_platform-dashboard/src/components/markets/economic/DotPlotChart.tsx:58-65 | A point gives max(count, 0) dots, each with the point's year, rate and count, and x offset by (i − count/2) × 0.03. |
| DotPlotChart.ExpandedDots | investment_platform-dashboard/src/components/markets/economic/DotPlotChart.tsx:55-67 | The expansion has one dot per official (the sum of the counts), and each dot carries the year, rate and count of a point with a positive count. |
| DotPlotChart.ExpandCounts | investment_platform-dashboard/src/components/markets/economic/DotPlotChart.tsx:55-67 | The `forEach` with its inner loop produces exactly the expansion, of length the sum of the counts. |
| DotPlotChart.RatesOfFrom | investment_platform-dashboard/src/components/markets/economic/DotPlotChart.tsx:76-80 | Every expanded rate is the rate of a point with a positive count. |
| DotPlotChart.Middle | investment_platform-dashboard/src/components/markets/economic/DotPlotChart.tsx:82-85 | There is a middle exactly when the list is non-empty (an empty list gives NaN). |
| DotPlotChart.MiddleBounds | investment_platform-dashboard/src/components/markets/economic/DotPlotChart.tsx:82-85 | The middle of a sorted list lies between its first and last elements. |
| DotPlotChart.ExpandRates | investment_platform-dashboard/src/components/markets/economic/DotPlotChart.tsx:75-80 | The loops push each point's rate `count` times, in order. |
| DotPlotChart.MedianWithinYear | investment_platform-dashboard/src/components/markets/economic/DotPlotChart.tsx:74-85 | The median of a year's sorted, expanded rates lies between two rates of that year that some official projected. |
| DotPlotChart.WeightedMedian | investment_platform-dashboard/src/components/markets/economic/DotPlotChart.tsx:71-87 | The sorted list is a stable ascending sort of the year's count-weighted rates. The median is its middle (or the mean of the two middles) and lies between the year's smallest and largest projected rates. |
| DotPlotChart.MedianOfYear | investment_platform-dashboard/src/components/markets/economic/DotPlotChart.tsx:70-87 | The entry is for the given year. Its median is the middle of an ascending permutation of the year's rates, each repeated by its count, so it is the count-weighted median. There is none exactly when no official projected a rate for that year. The median lies within the year's projected rates. |
| DotPlotChart.Medians | investment_platform-dashboard/src/components/markets/economic/DotPlotChart.tsx:70-88 | One entry per unique year, in year order. Each is that year's count-weighted median, absent exactly when nobody projected for the year, and within the year's projected rates. |
| DotPlotChart.YearData | investment_platform-dashboard/src/components/markets/economic/DotPlotChart.tsx:71 | The points of one year: exactly the data points with that year. |
| DotPlotChart.RatesOfEmpty | investment_platform-dashboard/src/components/markets/economic/DotPlotChart.tsx:74-80 | The expanded rates are empty exactly when no point has a positive count. |
| DotPlotChart.YTicks | investment_platform-dashboard/src/components/markets/economic/DotPlotChart.tsx:107-113 | The ticks run in 0.25 steps from the lower bound while not past the upper bound, each rounded to cents, and the next step would be past it. |
| DotPlotChart.QuarterTicksAreExact | investment_platform-dashboard/src/components/markets/economic/DotPlotChart.tsx:110 | From a quarter-point lower bound the rounding changes nothing: the ticks are exact quarters. |
| IndexSelector.Toggle | investment_platform-dashboard/src/components/IndexSelector.tsx:31-37 | A selected id is removed exactly as the chip's close button removes it, and nothing else is. An unselected id is appended below the cap, and the selection is unchanged at the cap. |
| IndexSelector.Remove | investment_platform-dashboard/src/components/IndexSelector.tsx:39-42 | Removes every occurrence of the id, ignoring the cap, and keeps the rest in order. |
| IndexSelector.DisabledIffToggleIgnored | investment_platform-dashboard/src/components/IndexSelector.tsx:137-142 | An option is disabled exactly when it is unselected and toggling it would change nothing. |
| IndexSelector.Apply | investment_platform-dashboard/src/components/IndexSelector.tsx:142-176 | A click toggles unless the option is disabled. The chip removes the id, and "Clear all" yields the empty selection. |
| IndexSelector.ClickIsToggle | investment_platform-dashboard/src/components/IndexSelector.tsx:142 | The disabled guard is redundant: a click always acts as a toggle. |
| IndexSelector.ApplyKeepsWellFormed | investment_platform-dashboard/src/components/IndexSelector.tsx:31-42 | A selection within the cap and without repeats stays so under every action. |
| IndexSelector.ToggleTwiceRestores | investment_platform-dashboard/src/components/IndexSelector.tsx:31-37 | Toggling an id on and off again below the cap restores the selection. |
| IndexSelector.WithoutAppended | investment_platform-dashboard/src/components/IndexSelector.tsx:33 | Removing an id just appended to a list without it gives back the list. |
| IndicesTab.LookUp | investment_platform-dashboard/src/components/markets/indices/IndicesTab.tsx:21 | Finds a catalogue entry with that id, exactly when the id is quoted there. |
| IndicesTab.DisplayedFrom | investment_platform-dashboard/src/components/markets/indices/IndicesTab.tsx:20-22 | No more cards than selected ids, each a catalogue entry for a selected id. |
| IndicesTab.Displayed | investment_platform-dashboard/src/components/markets/indices/IndicesTab.tsx:20-22 | The cards are market indices for selected ids, no more than there are ids. |
| IndicesTab.FollowsSelection | investment_platform-dashboard/src/components/markets/indices/IndicesTab.tsx:20-22 | If every selected id is in the catalogue, there is one entry per id, in selection order. |
| IndicesTab.DisplayedFollowsSelection | investment_platform-dashboard/src/components/markets/indices/IndicesTab.tsx:20-22 | When every selected id is quoted, one card is shown per id, in selection order. |
| IndicesTab.SkipsUnquoted | investment_platform-dashboard/src/components/markets/indices/IndicesTab.tsx:22 | An id missing from the catalogue adds no entry. |
| IndicesTab.DisplayedSkipsUnquoted | investment_platform-dashboard/src/components/markets/indices/IndicesTab.tsx:22 | An id without a quote contributes no card. |
| IndicesTab.AvailableToAdd | investment_platform-dashboard/src/components/markets/indices/IndicesTab.tsx:24-26 | Exactly the catalogue entries whose ids are not selected, in catalogue order. |
| IndicesTab.AddIndex | investment_platform-dashboard/src/components/markets/indices/IndicesTab.tsx:28-33 | Appends the id below the cap of 12, and leaves the list unchanged at the cap. |
| IndicesTab.InitialIsWellFormed | investment_platform-dashboard/src/components/markets/indices/IndicesTab.tsx:12-14 | The initial selection is within the cap, has no repeats, and every id in it is quoted. |
| IndicesTab.AddOfferedKeepsWellFormed | investment_platform-dashboard/src/components/markets/indices/IndicesTab.tsx:24-33 | Adding an id the menu offers keeps the selection within the cap and free of repeats. |
| IndicesTab.RemoveKeepsWellFormed | investment_platform-dashboard/src/components/markets/indices/IndicesTab.tsx:35-37 | Removing keeps the selection well formed. |
| IndicesTab.DurationLabelsDistinct | investment_platform-dashboard/src/components/markets/indices/IndicesTab.tsx:54-66 | The eight durations have eight different labels. |
| IndicesTab.DurationLabel | investment_platform-dashboard/src/components/markets/indices/IndicesTab.tsx:54-66 | Every duration has a non-empty label. "Custom Range" is the custom duration's label and no other's, and "Today" is the one-day label and no other's. |
| IndicesTab.IndicesTab.constructor | investment_platform-dashboard/src/components/markets/indices/IndicesTab.tsx:12-17 | The initial six indices, menu closed, 1M, no custom range; well formed. |
| IndicesTab.IndicesTab.ToggleSelector | investment_platform-dashboard/src/components/markets/indices/IndicesTab.tsx:89-91 | Below 12 selected indices the menu flips. At the cap the button is disabled and the click changes nothing. Nothing else changes. |
| IndicesTab.IndicesTab.OpenSelectorFromEmptyState | investment_platform-dashboard/src/components/markets/indices/IndicesTab.tsx:178-184 | The empty-state button, shown only while no card is displayed, opens the menu and changes nothing else. |
| IndicesTab.IndicesTab.HandleAddIndex | investment_platform-dashboard/src/components/markets/indices/IndicesTab.tsx:28-33 | The id is appended below the cap and the menu closes either way. |
| IndicesTab.IndicesTab.AddOffered | investment_platform-dashboard/src/components/markets/indices/IndicesTab.tsx:117-120 | Adding from the menu appends below the cap, closes the menu and keeps the tab well formed. |
| IndicesTab.IndicesTab.HandleRemoveIndex | investment_platform-dashboard/src/components/markets/indices/IndicesTab.tsx:35-37 | Every occurrence of the id is dropped, the rest keep their order, and the tab stays well formed. |
| IndicesTab.IndicesTab.HandleDurationChange | investment_platform-dashboard/src/components/markets/indices/IndicesTab.tsx:39-44 | The duration changes. A non-custom duration clears the custom range, and 'custom' keeps it. |
| IndicesTab.IndicesTab.Receive | investment_platform-dashboard/src/components/markets/indices/IndicesTab.tsx:75-79 | A selection goes to `handleDurationChange`, and a range change sets the custom range without touching the duration. |
| IndicesTab.IndicesTab.ReceiveAppliedRange | investment_platform-dashboard/src/components/markets/indices/IndicesTab.tsx:75-79 | Applying a custom range in the picker leaves the tab on 'custom' with that range. |
| DurationSelector.DurationSelector.constructor | investment_platform-dashboard/src/components/markets/indices/DurationSelector.tsx:36-38 | The picker starts closed, and the date inputs start from the parent's range or empty. |
| DurationSelector.DurationSelector.HandleDurationClick | investment_platform-dashboard/src/components/markets/indices/DurationSelector.tsx:40-47 | 'custom' only opens the picker and selects nothing. Any other duration closes the picker and selects it. |
| DurationSelector.DurationSelector.SetTempStartDate | investment_platform-dashboard/src/components/markets/indices/DurationSelector.tsx:120 | Only the start date input changes. |
| DurationSelector.DurationSelector.SetTempEndDate | investment_platform-dashboard/src/components/markets/indices/DurationSelector.tsx:130 | Only the end date input changes. |
| DurationSelector.DurationSelector.HandleApplyCustomRange | investment_platform-dashboard/src/components/markets/indices/DurationSelector.tsx:49-55 | With both dates non-empty and a range callback, the range is reported, then 'custom' is selected and the picker closes. Otherwise nothing happens. The dates' order is not checked. |
| DurationSelector.DurationSelector.ClosePicker | investment_platform-dashboard/src/components/markets/indices/DurationSelector.tsx:107 | The picker closes and the inputs stay. |
| NewsTab.FilteredNews | investment_platform-dashboard/src/components/markets/news/NewsTab.tsx:17-40 | Exactly the feed's items that pass the filter, in feed order. 'all' keeps the whole feed. |
| NewsTab.FilterAll | investment_platform-dashboard/src/components/markets/news/NewsTab.tsx:34-36 | Filtering with a predicate that keeps everything returns the list itself. |
| NewsTab.NoTickersNoHolding | investment_platform-dashboard/src/components/markets/news/NewsTab.tsx:21-24 | An item without tickers never passes the 'holdings' filter. |
| NewsTab.MentionsHolding | investment_platform-dashboard/src/components/markets/news/NewsTab.tsx:22-24 | An item mentions a holding exactly when one of its tickers is in the portfolio. An item without tickers never does. |
| NewsTab.Keeps | investment_platform-dashboard/src/components/markets/news/NewsTab.tsx:20-37 | 'all' keeps every item and 'holdings' exactly the items that mention a holding. 'market' keeps exactly the market and economy items, and 'earnings' exactly the earnings items. |
| NewsTab.CategoryFiltersDisjoint | investment_platform-dashboard/src/components/markets/news/NewsTab.tsx:26-33 | No item passes both the 'market' and the 'earnings' filter. |
| NewsTab.DisplayedNews | investment_platform-dashboard/src/components/markets/news/NewsTab.tsx:42 | The first `visibleCount` filtered items (all of them if fewer), a subsequence of the feed. |
| NewsTab.HasMoreIffHidden | investment_platform-dashboard/src/components/markets/news/NewsTab.tsx:43 | "Load more" shows exactly while some filtered items are hidden. |
| NewsTab.NewsTab.constructor | investment_platform-dashboard/src/components/markets/news/NewsTab.tsx:13-14 | Filter 'all' and ten visible items: the first ten of the feed are shown. |
| NewsTab.NewsTab.SetFilter | investment_platform-dashboard/src/components/markets/news/NewsTab.tsx:13 | The filter changes and the visible count is kept. |
| NewsTab.NewsTab.HandleLoadMore | investment_platform-dashboard/src/components/markets/news/NewsTab.tsx:45-47 | The visible count grows by ten, capped at the number of filtered items; while items were hidden it grows. |
| NewsCard.FormatTimestamp | investment_platform-dashboard/src/components/markets/news/NewsCard.tsx:11-28 | Under an hour: whole minutes. 1 to 23 hours: whole hours. 1 to 6 days: whole days. A week or more: the calendar date. An unparsable date prints the invalid-date text. |
| NewsCard.AgeRanges | investment_platform-dashboard/src/components/markets/news/NewsCard.tsx:14-24 | The minutes are 0 to 59 for a past item, the hours 1 to 23 and the days 1 to 6. A future item lands in the minutes bucket with a negative count. |
| NewsCard.AgeBucketsAreOrdered | investment_platform-dashboard/src/components/markets/news/NewsCard.tsx:18-27 | An older item never gets a younger bucket than a newer one. |
| NewsCard.RelativePhraseIsInvalid | investment_platform-dashboard/src/utils/marketsMockData.ts:333-427 | Given that `new Date` makes an invalid date of every relative phrase, every card of the feed ("2 hours ago", …, "2 days ago") prints the invalid-date text. A date that parses never does. |
| NewsCard.FeedIsRelative | investment_platform-dashboard/src/utils/marketsMockData.ts:333-427 | Every timestamp of the news feed is a relative phrase: it starts with a count and ends with " ago". |
| TaxLotsPanel.CalculateSummary | investment_platform-dashboard/src/components/portfolio/TaxLotsPanel.tsx:20-30 | Long-term gains sum exactly the long-term lots and short-term gains exactly the others. Together they make the total gain. The estimated tax if sold is the sum of every lot's estimated tax. No lots give all zeros. |
| TaxLotsPanel.LongTermLots | investment_platform-dashboard/src/components/portfolio/TaxLotsPanel.tsx:21 | Exactly the long-term lots, in their order. |
| TaxLotsPanel.ShortTermLots | investment_platform-dashboard/src/components/portfolio/TaxLotsPanel.tsx:22 | Exactly the short-term lots, in their order. |
| TaxLotsPanel.EstimatedTaxBounds | investment_platform-dashboard/src/components/portfolio/TaxLotsPanel.tsx:28 | With no negative estimate, the tax if sold is non-negative and at least each lot's own estimate. |
| TaxLotsPanel.TermGains | investment_platform-dashboard/src/components/portfolio/TaxLotsPanel.tsx:21-27 | Summing the lots of one term equals summing every lot's gain where it has that term and 0 elsewhere. |
| TaxLotsPanel.FilteredGains | investment_platform-dashboard/src/components/portfolio/TaxLotsPanel.tsx:21-27 | The long-term filter sums exactly the long-term lots' gains, and the short-term filter exactly the others'. |
| TaxLotsPanel.GainsSplit | investment_platform-dashboard/src/components/portfolio/TaxLotsPanel.tsx:25-27 | Long-term and short-term lots partition the list: their gains add up to the total. |
| TaxLotsPanel.PanelSummary | investment_platform-dashboard/src/components/portfolio/TaxLotsPanel.tsx:35-39 | No lots render nothing; otherwise the summary is shown. |
| TaxLotsPanel.BadgeAsWritten | investment_platform-dashboard/src/components/portfolio/TaxLotsPanel.tsx:96-100 | As written: a short-term lot with `daysToLongTerm` 0 prints a stray "0". A non-zero count shows the badge, highlighted within 90 days. |
| TaxLotsPanel.LongTermBadge | investment_platform-dashboard/src/components/portfolio/TaxLotsPanel.tsx:96-100 | The badge shows exactly for short-term lots with a non-zero count, highlighted within 90 days, and nothing else is printed. |
| TaxLotsPanel.BadgeDiscrepancy | investment_platform-dashboard/src/components/portfolio/TaxLotsPanel.tsx:96 | The two badges differ exactly for a short-term lot with `daysToLongTerm` 0. |
| BentoGrid.OrderKey | investment_platform-dashboard/src/components/portfolio/BentoGrid.tsx:14-16 | The configured order of the class's first entry. A class without an entry, or with order 0, sorts as 99. |
| BentoGrid.ZeroOrderSortsAsMissing | investment_platform-dashboard/src/components/portfolio/BentoGrid.tsx:16 | An order configured as 0 sorts exactly like a class with no entry. |
| BentoGrid.SortedAssetClasses | investment_platform-dashboard/src/components/portfolio/BentoGrid.tsx:13-17 | A stable sorted copy: a rearrangement of the classes, ascending by order key, with classes of equal key in their input order. The input is a value and stays as it was. |
| BentoGrid.SizeFor | investment_platform-dashboard/src/components/portfolio/BentoGrid.tsx:22-27 | The configured size, or 'default' without an entry. |
| BentoGrid.Cards | investment_platform-dashboard/src/components/portfolio/BentoGrid.tsx:21-31 | One card per sorted class, in order, with its configured size and the position as delay. |
| BentoGrid.Render | investment_platform-dashboard/src/components/portfolio/BentoGrid.tsx:11-35 | Every class gets exactly one card. The cards are a stable sort of the classes by order key, so equal keys keep the classes' order, and the delays are 0, 1, 2, … |
| PredictionsPage.StringLeTotal | investment_platform-dashboard/src/components/predictions/PredictionsPage.tsx:69 | Any two symbols are comparable. |
| PredictionsPage.StringLeTransitive | investment_platform-dashboard/src/components/predictions/PredictionsPage.tsx:69 | The symbol order is transitive. |
| PredictionsPage.LeIsTotalPreorder | investment_platform-dashboard/src/components/predictions/PredictionsPage.tsx:57-71 | Each of the three comparators is a total preorder, so sorting by it is well defined. |
| PredictionsPage.Le | investment_platform-dashboard/src/components/predictions/PredictionsPage.tsx:56-70 | The comparators as orders: by confidence, higher first. By return, larger absolute return first. By symbol, ascending. |
| PredictionsPage.Matches | investment_platform-dashboard/src/components/predictions/PredictionsPage.tsx:49-53 | 'all' keeps everything. 'buy', 'sell' and 'hold' keep exactly the predictions with that signal. |
| PredictionsPage.SignalFiltersPartition | investment_platform-dashboard/src/components/predictions/PredictionsPage.tsx:49-53 | Each prediction passes exactly one of the 'buy', 'sell' and 'hold' filters. |
| PredictionsPage.AbsReturn | investment_platform-dashboard/src/components/predictions/PredictionsPage.tsx:62-64 | The size of the expected return is non-negative. Times the current price, it is ±(predicted − current). It is 0 at a zero price. |
| PredictionsPage.Selected | investment_platform-dashboard/src/components/predictions/PredictionsPage.tsx:47-54 | 'all' keeps everything; otherwise only predictions whose signal matches the filter. |
| PredictionsPage.FilteredPredictions | investment_platform-dashboard/src/components/predictions/PredictionsPage.tsx:46-74 | A stable sorted copy of the matching predictions: a permutation of them, each matching prediction as often as in the input, with ties in input order. It is descending by confidence, descending by absolute return, or ascending by symbol, as the key asks. |
| PredictionsPage.CountSignal | investment_platform-dashboard/src/components/predictions/PredictionsPage.tsx:80-82 | A signal's count never exceeds the number of predictions. |
| PredictionsPage.Counts | investment_platform-dashboard/src/components/predictions/PredictionsPage.tsx:77-85 | 'all' is the number of predictions, and buy + sell + hold equals it. |
| PredictionsPage.CountsAddUp | investment_platform-dashboard/src/components/predictions/PredictionsPage.tsx:80-82 | Every signal is BUY, SELL or HOLD, so the three counts add up to the total (types/predictions.ts:11). |
| PredictionsPage.HighConfidenceSignals | investment_platform-dashboard/src/components/predictions/PredictionsPage.tsx:117-120 | The first 4 of a stable sort, by descending confidence, of the predictions with confidence ≥ 0.75. So there are at most 4, all above the threshold, in descending confidence, and no omitted prediction above the threshold is more confident than one shown. |
| PredictionsPage.HighConfidenceOnly | investment_platform-dashboard/src/components/predictions/PredictionsPage.tsx:118 | Exactly the predictions with confidence ≥ 0.75. |
| PredictionsPage.TopOfSorted | investment_platform-dashboard/src/components/predictions/PredictionsPage.tsx:119-120 | The first n of a copy sorted by descending confidence come from the original, and none left out is more confident than one kept. |
| SignalCard.CalcRangePercent | investment_platform-dashboard/src/components/predictions/SignalCard.tsx:57-61 | 50 for a zero range; otherwise the result times the range is (value − low) × 100. |
| SignalCard.RangeEnds | investment_platform-dashboard/src/components/predictions/SignalCard.tsx:60 | low maps to 0, high to 100, and the midpoint to 50. |
| SignalCard.RangeNotClamped | investment_platform-dashboard/src/components/predictions/SignalCard.tsx:60 | Not clamped: below low gives < 0, above high gives > 100, and inside the range gives [0, 100]. |
| SignalCard.BelowRange | investment_platform-dashboard/src/components/predictions/SignalCard.tsx:60 | A value below the range gives a negative percentage. |
| SignalCard.AboveRange | investment_platform-dashboard/src/components/predictions/SignalCard.tsx:60 | A value above the range gives more than 100. |
| SignalCard.InsideRange | investment_platform-dashboard/src/components/predictions/SignalCard.tsx:60 | A value inside the range gives a percentage in [0, 100]. |
| SignalCard.ExpectedReturnOf | investment_platform-dashboard/src/components/predictions/SignalCard.tsx:67-68 | The '+' is printed exactly when the predicted price is at least the current one. There is no percentage exactly when the current price is 0, where JavaScript prints Infinity or NaN. Otherwise the percentage times the current price is (predicted − current) × 100. |
| SignalCard.SignMatchesPercent | investment_platform-dashboard/src/components/predictions/SignalCard.tsx:228-229 | For a positive price there is a percentage, and the '+' appears exactly when it is non-negative. |
| SignalCard.RsiTone | investment_platform-dashboard/src/components/predictions/SignalCard.tsx:242-248 | Crimson exactly above 70, emerald exactly below 30, neutral otherwise. |
| SignalCard.MomentumTone | investment_platform-dashboard/src/components/predictions/SignalCard.tsx:261-267 | Emerald exactly above 0.3, crimson exactly below −0.3, neutral otherwise. |
| SectorSentiment.TotalSignals | investment_platform-dashboard/src/components/predictions/SectorSentiment.tsx:42 | The divisor is never 0: the sum of the signals, or 1 when that is 0. |
| SectorSentiment.Width | investment_platform-dashboard/src/components/predictions/SectorSentiment.tsx:82-98 | A segment's width times the total is its count × 100. |
| SectorSentiment.Part | investment_platform-dashboard/src/components/predictions/SectorSentiment.tsx:78-101 | One segment with its width for a positive count, none for 0. |
| SectorSentiment.Segments | investment_platform-dashboard/src/components/predictions/SectorSentiment.tsx:77-102 | Every drawn segment has its count's width, which is positive. |
| SectorSentiment.SegmentsShown | investment_platform-dashboard/src/components/predictions/SectorSentiment.tsx:78-101 | A segment is drawn exactly for each signal with a positive count, in the order buy, hold, sell. |
| SectorSentiment.SegmentOrder | investment_platform-dashboard/src/components/predictions/SectorSentiment.tsx:78-101 | Any choice of the three segments keeps the order buy, hold, sell. |
| SectorSentiment.SegmentsFillBar | investment_platform-dashboard/src/components/predictions/SectorSentiment.tsx:42-101 | With at least one signal the drawn widths add up to exactly 100; with none the bar is empty. |
| SectorSentiment.PartSum | investment_platform-dashboard/src/components/predictions/SectorSentiment.tsx:78-101 | A missing segment contributes nothing, as its count's share is 0. |
| SectorSentiment.WidthsAddUp | investment_platform-dashboard/src/components/predictions/SectorSentiment.tsx:82-98 | Three counts making up the total give widths adding up to 100. |
| SectorSentiment.TopPicksLine | investment_platform-dashboard/src/components/predictions/SectorSentiment.tsx:111-114 | The line appears exactly for a non-empty list, and a single pick is shown alone. |
| SectorSentiment.TopPicksLineEndsWithLast | investment_platform-dashboard/src/components/predictions/SectorSentiment.tsx:113 | With two or more picks, the line is the earlier picks joined, ", ", and the last pick. |
| SectorSentiment.JoinAppend | investment_platform-dashboard/src/components/predictions/SectorSentiment.tsx:113 | Joining a list with one more element appends the separator and that element. |
| SectorSentiment.Join | investment_platform-dashboard/src/components/predictions/SectorSentiment.tsx:113 | The empty list joins to the empty string. Otherwise the result starts with the first pick, and its length is the picks' total length plus one separator between each two. |
| AnimatedNumber.EaseEndsAtOne | investment_platform-dashboard/src/hooks/useAnimatedNumber.ts:11-13 | `easeOutExpo(1)` is exactly 1; for any other t (with a positive power of two) it stays below 1. |
| AnimatedNumber.EaseOutExpo | investment_platform-dashboard/src/hooks/useAnimatedNumber.ts:11-13 | The curve is exactly 1 at the end. Before the end, with the power in (0, 1], it lies in [0, 1). |
| AnimatedNumber.Progress | investment_platform-dashboard/src/hooks/useAnimatedNumber.ts:42 | Progress is at most 1, reaches 1 exactly once the duration has elapsed, and is non-negative for non-negative elapsed time. |
| AnimatedNumber.Animation.constructor | investment_platform-dashboard/src/hooks/useAnimatedNumber.ts:32-35 | A run starts from the displayed value, with no start time and not finished. |
| AnimatedNumber.Animation.Frame | investment_platform-dashboard/src/hooks/useAnimatedNumber.ts:36-56 | The first frame fixes the start time. The value is start + (target − start) × ease(progress). Another frame is requested exactly while progress < 1, and a run that requests none shows the target. |
| AnimatedNumber.CompactParts | investment_platform-dashboard/src/hooks/useAnimatedNumber.ts:93-103 | B for values ≥ 1e9, M for ≥ 1e6 and K for ≥ 1e3, each scaled by that power. Every other value, including every negative one, is unscaled. |
| AnimatedNumber.CompactScale | investment_platform-dashboard/src/hooks/useAnimatedNumber.ts:93-103 | A scaled amount is at least one unit, M and K amounts are below 1000, and negative values are never scaled. |
| AnimatedNumber.FormatCompact | investment_platform-dashboard/src/hooks/useAnimatedNumber.ts:93-104 | "$", the amount in its unit to two decimals, then the unit; it always starts with "$". |
| AnimatedNumber.FormatPercent | investment_platform-dashboard/src/hooks/useAnimatedNumber.ts:81-84 | '+' is prefixed exactly for values ≥ 0, and the text always ends with '%'. |
| Sorting.SortBy | investment_platform-dashboard/src/components/predictions/PredictionsPage.tsx:59 | With a total-preorder comparator, the array ends sorted and is a permutation of what it held. The sort is stable: elements that compare equal keep their input order, as `Array.prototype.sort` guarantees. |
| Sorting.Insert | investment_platform-dashboard/src/components/predictions/PredictionsPage.tsx:59 | One insertion pass extends the sorted prefix by one element, with ties in input order, and keeps the array's contents as a multiset. |
| Sorting.SortedCopy | investment_platform-dashboard/src/components/predictions/PredictionsPage.tsx:46-59 | `[...s].sort(cmp)`: the result is a stable sort of `s`. It is sorted, a permutation of `s`, and has equal elements in their order in `s`. |
| Prelude.Lower | investment_platform-dashboard/src/utils/ordersMockData.ts:83 | `toLowerCase` on the ASCII letters: same length, each character mapped on its own, capitals to small letters. |
| Prelude.Upper | investment_platform-dashboard/src/utils/ordersMockData.ts:77 | `toUpperCase` on the ASCII letters: same length, each character mapped on its own, small letters to capitals. |

## Left out

- Rendering: JSX, animation props, chart configuration, icons and styles.
- Foreign library behaviour is a parameter or an abstract value, never computed. This covers `Date` parsing and arithmetic, `toLocaleDateString`/`toLocaleTimeString`, `Intl.NumberFormat`, `toFixed`, `toString`, `parseFloat`, `Math.pow` and `localeCompare`.
- Timers and DOM listeners: the hook's `setTimeout`/`requestAnimationFrame` scheduling, the `mousedown` and `keydown` listeners, and the delay. The click-outside handler is modelled as a method called by the environment.
- Floating point: amounts are exact reals. Comparisons such as `total !== 100` that JavaScript decides on doubles are decided exactly here.
- The broker table (`brokers` in portfolioMockData.ts) and the prediction mock data are not part of this model. The form takes the broker list as a fixed, non-empty parameter, and the pages take the predictions and sectors as inputs.
- MarketsMockData.Step: the bit-exact JavaScript sequence is not modelled. `seed * 1103515245` exceeds 2^53 and loses precision before the `&`. The model computes the step exactly (`% 2^31`), and proves the bound and determinism, not the doubles' values.
- MarketsMockData.GenerateIndexTimeSeries: the values of the walk are not modelled (drift, volatility, `Math.exp`/`Math.sqrt`, OHLC values and their rounding). Only the calendar skeleton is: which points, at which offsets or times, and how many draws. The OHLC ordering is a separate lemma over abstract positive prices. Dates are abstract `Day` records (milliseconds, day of month, day of week, market open).
- MarketsMockData.PeriodChangeOf works on the series' values, not on `getIndexPeriodChange`'s call of the generator.
- The sparkline generator (`Math.random`) and the other mock data tables are not modelled.
- PredictionsPage.FilteredPredictions: `localeCompare` is approximated by code-unit order.
- OrdersMockData.GetSecurityPrice: case is folded for ASCII letters only (`Prelude.Upper`). JavaScript's `toUpperCase` maps every Unicode letter, so a symbol argument such as "ſpy" finds SPY there but not here.
- OrdersMockData.SearchSecurities: case is folded for ASCII letters only (`Prelude.Lower`). JavaScript's `toLowerCase` maps every Unicode letter, so a query with a non-ASCII capital can match in JavaScript and not here. The same holds for OrdersMockData.SearchTable and OrdersMockData.MatchesQuery.
- Prelude.Lower: maps only 'A'–'Z', where `toLowerCase` maps all of Unicode. Prelude.Upper likewise maps only 'a'–'z'.
- MarketsMockData.CharCodeSum adds each character's code point. `charCodeAt` adds UTF-16 code units, which differ for characters outside the Basic Multilingual Plane; the index ids are ASCII.
- PredictionsPage.AbsReturn takes a zero price as return 0, where JavaScript computes Infinity or NaN.
- AnimatedNumber.Progress requires a positive duration; a duration of 0 gives NaN or Infinity in JavaScript.
- AnimatedNumber.Animation.Frame: the `Number(value.toFixed(decimals))` rounding is not applied to the displayed value.
- NewsCard.FormatTimestamp prints the calendar date as an abstract `CalendarDate`. An unparsable date is `InvalidDate`, what `toLocaleDateString` prints for it.
- NewsCard.RelativePhraseIsInvalid: `new Date(text)` is a parameter. That it makes an invalid date of a relative phrase is the lemma's hypothesis, not a property proved of a date parser.
- OrdersMockData.CalculateCommission: the broker lookup covers the table's own keys only. In JavaScript `brokerCommissions[brokerId]` also finds inherited keys such as "constructor" or "toString", whose missing `perShare` makes the commission NaN; here such an id gives 0. The app passes only table broker ids.
- MarketsMockData.Characteristics: the lookup covers the table's own keys only. In JavaScript `indexCharacteristics[indexId] || {…}` returns an inherited value such as `Object.prototype.toString` for "toString" instead of the default; here such an id gets the default.
- The overview heading of the predictions page says "> 75%" while the code keeps confidence ≥ 0.75; the model follows the code.

## Findings

| source | as written | input that shows it | evidently intended | confidence | as-written member | corrected member |
|---|---|---|---|---|---|---|
| investment_platform-dashboard/src/components/orders/QuantityInput.tsx:24-31 | After a principal keystroke, the sync effect rewrites the shares box with `shares.toString()`. This replaces the 4-decimal, trimmed text the principal handler had just written. | Type "10" in the principal box at price 3: the handler shows 3.3333, then the effect shows 3.3333333333333335. | The effect leaves the handler's text alone, printing shares the way the handler does. | high; not executed | QuantityInput.SyncAsWrittenReformatsShares | QuantityInput.SyncAfterTypingIsStable |
| investment_platform-dashboard/src/components/portfolio/TaxLotsPanel.tsx:96-100 | `!lot.isLongTerm && lot.daysToLongTerm && (...)` yields the number 0 when `daysToLongTerm` is 0, and React prints it. | A short-term lot with `daysToLongTerm: 0` shows a stray "0" under its purchase date. | Nothing is shown for a count of 0. | high; not executed | TaxLotsPanel.BadgeDiscrepancy | TaxLotsPanel.LongTermBadge |
