/** src/components/portfolio/TaxLotsPanel.tsx: the tax-lot summary of a holding and the
    per-lot "days to long term" badge. */
module TaxLotsPanel {
  import opened Prelude

  /** A tax lot (types/portfolio.ts); `daysToLongTerm` is only set on short-term lots. */
  datatype TaxLot = TaxLot(
    id: string,
    shares: real,
    costBasis: real,
    currentValue: real,
    gainLoss: real,
    isLongTerm: bool,
    daysToLongTerm: Option<real>,
    estimatedTax: real,
    taxRate: real)

  datatype TaxLotsSummary = TaxLotsSummary(
    totalGain: real,
    longTermGains: real,
    shortTermGains: real,
    estimatedTaxIfSold: real)

  /** The gain or loss of every lot, in order. */
  function Gains(lots: seq<TaxLot>): (r: seq<real>)
    ensures |r| == |lots| && forall i :: 0 <= i < |lots| ==> r[i] == lots[i].gainLoss
  {
    seq(|lots|, i requires 0 <= i < |lots| => lots[i].gainLoss)
  }

  /** The estimated tax of every lot, in order. */
  function Taxes(lots: seq<TaxLot>): (r: seq<real>)
    ensures |r| == |lots| && forall i :: 0 <= i < |lots| ==> r[i] == lots[i].estimatedTax
  {
    seq(|lots|, i requires 0 <= i < |lots| => lots[i].estimatedTax)
  }

  function LongTermLots(lots: seq<TaxLot>): (r: seq<TaxLot>)
    ensures forall l :: l in r <==> l in lots && l.isLongTerm
    ensures IsSubsequence(r, lots)
  {
    FilterIsSubsequence(lots, (l: TaxLot) => l.isLongTerm);
    Filter(lots, (l: TaxLot) => l.isLongTerm)
  }

  function ShortTermLots(lots: seq<TaxLot>): (r: seq<TaxLot>)
    ensures forall l :: l in r <==> l in lots && !l.isLongTerm
    ensures IsSubsequence(r, lots)
  {
    FilterIsSubsequence(lots, (l: TaxLot) => !l.isLongTerm);
    Filter(lots, (l: TaxLot) => !l.isLongTerm)
  }

  /** Reference definition: the gains of the lots whose term is `longTerm`, every other
      lot counting as 0. */
  function GainWhere(lots: seq<TaxLot>, longTerm: bool): real
  {
    if lots == [] then 0.0
    else (if lots[0].isLongTerm == longTerm then lots[0].gainLoss else 0.0) + GainWhere(lots[1..], longTerm)
  }

  /** `calculateSummary`. Long-term gains cover exactly the long-term lots, short-term
      gains exactly the others, and together they make the total. */
  function CalculateSummary(lots: seq<TaxLot>): (s: TaxLotsSummary)
    ensures s.longTermGains == GainWhere(lots, true)
    ensures s.shortTermGains == GainWhere(lots, false)
    ensures s.totalGain == s.longTermGains + s.shortTermGains
    ensures s.estimatedTaxIfSold == Sum(Taxes(lots))
    ensures |lots| == 0 ==> s == TaxLotsSummary(0.0, 0.0, 0.0, 0.0)
  {
    FilteredGains(lots);
    GainsSplit(lots);
    TaxLotsSummary(
      Sum(Gains(lots)),
      Sum(Gains(LongTermLots(lots))),
      Sum(Gains(ShortTermLots(lots))),
      Sum(Taxes(lots)))
  }

  /** With no lot carrying a negative tax estimate, the estimated tax if everything is
      sold is not negative, and it is at least each lot's own estimate. */
  lemma EstimatedTaxBounds(lots: seq<TaxLot>)
    requires forall i :: 0 <= i < |lots| ==> lots[i].estimatedTax >= 0.0
    ensures CalculateSummary(lots).estimatedTaxIfSold >= 0.0
    ensures forall i :: 0 <= i < |lots| ==> lots[i].estimatedTax <= CalculateSummary(lots).estimatedTaxIfSold
  {
    SumNonNegative(Taxes(lots));
    forall i | 0 <= i < |lots|
      ensures lots[i].estimatedTax <= Sum(Taxes(lots))
    {
      ElementAtMostSum(Taxes(lots), i);
    }
  }

  /** The lots of one term. */
  function HasTerm(longTerm: bool): TaxLot -> bool
  {
    (l: TaxLot) => l.isLongTerm == longTerm
  }

  /** Summing the lots of one term is the conditional sum over all lots. */
  lemma {:induction false} TermGains(lots: seq<TaxLot>, longTerm: bool)
    ensures Sum(Gains(Filter(lots, HasTerm(longTerm)))) == GainWhere(lots, longTerm)
  {
    if lots != [] {
      TermGains(lots[1..], longTerm);
      var rest := Filter(lots[1..], HasTerm(longTerm));
      if lots[0].isLongTerm == longTerm {
        assert Filter(lots, HasTerm(longTerm)) == [lots[0]] + rest;
        assert Gains([lots[0]] + rest) == [lots[0].gainLoss] + Gains(rest);
        SumAppend([lots[0].gainLoss], Gains(rest));
      } else {
        assert Filter(lots, HasTerm(longTerm)) == rest;
      }
    }
  }

  /** The long-term filter sums exactly the long-term lots' gains, the short-term filter
      exactly the others'. */
  lemma FilteredGains(lots: seq<TaxLot>)
    ensures Sum(Gains(LongTermLots(lots))) == GainWhere(lots, true)
    ensures Sum(Gains(ShortTermLots(lots))) == GainWhere(lots, false)
  {
    TermGains(lots, true);
    TermGains(lots, false);
    FilterSame(lots, HasTerm(true), (l: TaxLot) => l.isLongTerm);
    FilterSame(lots, HasTerm(false), (l: TaxLot) => !l.isLongTerm);
  }

  lemma {:induction false} FilterSame<T>(s: seq<T>, p: T -> bool, q: T -> bool)
    requires forall x :: p(x) == q(x)
    ensures Filter(s, p) == Filter(s, q)
  {
    if s != [] {
      FilterSame(s[1..], p, q);
    }
  }

  /** Every lot is either long-term or short-term, so the two conditional sums add up
      to the sum of all gains. */
  lemma {:induction false} GainsSplit(lots: seq<TaxLot>)
    ensures Sum(Gains(lots)) == GainWhere(lots, true) + GainWhere(lots, false)
  {
    if lots != [] {
      GainsSplit(lots[1..]);
      assert Gains(lots)[1..] == Gains(lots[1..]);
    }
  }

  /** The panel renders nothing without lots; otherwise it shows the summary. */
  function PanelSummary(lots: seq<TaxLot>): (r: Option<TaxLotsSummary>)
    ensures r.None? <==> |lots| == 0
    ensures r.Some? ==> r.value.totalGain == r.value.longTermGains + r.value.shortTermGains
  {
    if |lots| == 0 then None else Some(CalculateSummary(lots))
  }

  /** What the purchase-date cell shows under the date. */
  datatype Badge =
    | NoBadge
      /** React prints a falsy number operand of `&&` as text. */
    | StrayZero
    | DaysToLongTerm(days: real, highlighted: bool)

  /** `!lot.isLongTerm && lot.daysToLongTerm && (...)` as written: a short-term lot with
      `daysToLongTerm` 0 yields the number 0, which is printed. */
  function BadgeAsWritten(lot: TaxLot): (b: Badge)
    ensures lot.isLongTerm || lot.daysToLongTerm.None? ==> b == NoBadge
    ensures !lot.isLongTerm && lot.daysToLongTerm == Some(0.0) ==> b == StrayZero
    ensures b.DaysToLongTerm? <==> !lot.isLongTerm && lot.daysToLongTerm.Some? && lot.daysToLongTerm.value != 0.0
    ensures b.DaysToLongTerm? ==> b.days == lot.daysToLongTerm.value && (b.highlighted <==> b.days <= 90.0)
  {
    if lot.isLongTerm || lot.daysToLongTerm.None? then NoBadge
    else if lot.daysToLongTerm.value == 0.0 then StrayZero
    else DaysToLongTerm(lot.daysToLongTerm.value, lot.daysToLongTerm.value <= 90.0)
  }

  /** The badge as intended: only short-term lots with a non-zero count show it,
      highlighted within 90 days, and nothing else is ever printed. */
  function LongTermBadge(lot: TaxLot): (b: Badge)
    ensures b != StrayZero
    ensures b.DaysToLongTerm? <==> !lot.isLongTerm && lot.daysToLongTerm.Some? && lot.daysToLongTerm.value != 0.0
    ensures b.DaysToLongTerm? ==> b.days == lot.daysToLongTerm.value && (b.highlighted <==> b.days <= 90.0)
  {
    if !lot.isLongTerm && lot.daysToLongTerm.Some? && lot.daysToLongTerm.value != 0.0 then
      DaysToLongTerm(lot.daysToLongTerm.value, lot.daysToLongTerm.value <= 90.0)
    else NoBadge
  }

  /** The two agree on every lot except a short-term lot due to turn long-term today,
      where the code as written prints a stray "0". */
  lemma BadgeDiscrepancy(lot: TaxLot)
    ensures BadgeAsWritten(lot) != LongTermBadge(lot) <==> !lot.isLongTerm && lot.daysToLongTerm == Some(0.0)
    ensures BadgeAsWritten(TaxLot("lot", 1.0, 1.0, 1.0, 0.0, false, Some(0.0), 0.0, 0.35)) == StrayZero
  {
  }
}
