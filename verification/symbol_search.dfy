/** src/components/orders/SymbolSearch.tsx: the symbol box with its drop-down of
    matches, driven by the query, the arrow, Enter and Escape keys, focus and clicks. */
module SymbolSearch {
  import opened Prelude
  import opened OrderTypes
  import OrdersMockData

  datatype Key = ArrowDown | ArrowUp | Enter | Escape | OtherKey

  /** What the search effect leaves for a query. */
  datatype Outcome = Outcome(results: seq<SecurityPrice>, isOpen: bool, resetsHighlight: bool)

  /** The search effect: an enabled, non-empty query loads its matches, opens the list
      iff there are any and moves the highlight to the top; otherwise the list is
      emptied and closed (the highlight is left where it was). */
  function SearchOutcome(query: string, disabled: bool): (o: Outcome)
    ensures |query| >= 1 && !disabled ==>
      o.results == OrdersMockData.SearchSecurities(query) && (o.isOpen <==> |o.results| > 0) && o.resetsHighlight
    ensures |query| == 0 || disabled ==> o.results == [] && !o.isOpen && !o.resetsHighlight
    ensures o.isOpen <==> |o.results| > 0
    ensures |o.results| > 0 ==> o.resetsHighlight
  {
    if |query| >= 1 && !disabled then
      var found := OrdersMockData.SearchSecurities(query);
      Outcome(found, |found| > 0, true)
    else
      Outcome([], false, false)
  }

  /** Searching for a listed security's own symbol always finds something. */
  lemma OwnSymbolIsFound(s: SecurityPrice)
    requires s in OrdersMockData.SecurityPrices && |s.symbol| >= 1
    ensures |OrdersMockData.SearchSecurities(s.symbol)| > 0
  {
    var q := Lower(s.symbol);
    assert OccursAt(Lower(s.symbol), q, 0);
    assert OrdersMockData.MatchesQuery(s, q);
  }

  class SymbolSearch {
    var query: string
    var results: seq<SecurityPrice>
    var isOpen: bool
    var highlightIndex: int
    /** The `disabled` prop, which the parent may change. */
    var disabled: bool

    /** The list is only open with something in it, and the highlight points into
        any non-empty result list. */
    predicate Valid()
      reads this
    {
      (isOpen ==> |results| > 0) && (|results| > 0 ==> 0 <= highlightIndex < |results|)
    }

    /** Mounting: the query starts as the `value` prop and the search effect runs once. */
    constructor(value: string, disabled: bool)
      ensures query == value && this.disabled == disabled
      ensures results == SearchOutcome(value, disabled).results && isOpen == SearchOutcome(value, disabled).isOpen
      ensures highlightIndex == 0
      ensures Valid()
    {
      query := value;
      this.disabled := disabled;
      var o := SearchOutcome(value, disabled);
      results := o.results;
      isOpen := o.isOpen;
      highlightIndex := 0;
    }

    /** The search effect, run when the query has changed. */
    method SearchEffect()
      modifies this
      ensures query == old(query) && disabled == old(disabled)
      ensures results == SearchOutcome(query, disabled).results && isOpen == SearchOutcome(query, disabled).isOpen
      ensures highlightIndex == if SearchOutcome(query, disabled).resetsHighlight then 0 else old(highlightIndex)
      ensures Valid()
    {
      var o := SearchOutcome(query, disabled);
      results, isOpen := o.results, o.isOpen;
      highlightIndex := if o.resetsHighlight then 0 else highlightIndex;
    }

    /** Typing: the new text becomes the query and, if it differs, the effect runs. */
    method HandleInput(text: string)
      modifies this
      ensures query == text && disabled == old(disabled)
      ensures text != old(query) ==>
        results == SearchOutcome(text, disabled).results && isOpen == SearchOutcome(text, disabled).isOpen
      ensures text == old(query) ==> results == old(results) && isOpen == old(isOpen) && highlightIndex == old(highlightIndex)
      ensures old(Valid()) ==> Valid()
    {
      if text != query {
        query := text;
        SearchEffect();
      }
    }

    /** Focus reopens the list when there is a query and something to show. */
    method HandleFocus()
      modifies this
      ensures isOpen == (old(isOpen) || (|query| >= 1 && |results| > 0))
      ensures query == old(query) && results == old(results) && highlightIndex == old(highlightIndex)
      ensures disabled == old(disabled)
      ensures old(Valid()) ==> Valid()
    {
      if |query| >= 1 && |results| > 0 {
        isOpen := true;
      }
    }

    /** A mouse-down outside the component closes the list. */
    method HandleClickOutside()
      modifies this
      ensures !isOpen
      ensures query == old(query) && results == old(results) && highlightIndex == old(highlightIndex)
      ensures disabled == old(disabled)
      ensures old(Valid()) ==> Valid()
    {
      isOpen := false;
    }

    /** A new `disabled` prop: the search effect runs again when it differs. */
    method SetDisabled(d: bool)
      modifies this
      ensures disabled == d && query == old(query)
      ensures d != old(disabled) ==>
        results == SearchOutcome(query, d).results && isOpen == SearchOutcome(query, d).isOpen
      ensures d != old(disabled) && d ==> results == [] && !isOpen
      ensures d == old(disabled) ==> results == old(results) && isOpen == old(isOpen) && highlightIndex == old(highlightIndex)
      ensures old(Valid()) ==> Valid()
    {
      if d != disabled {
        disabled := d;
        SearchEffect();
      }
    }

    /** `handleSelect`: the security goes to the parent, its symbol becomes the query,
        and the list closes. A symbol that differs from the query changes it, so the
        search effect runs again and loads that symbol's matches; for a listed security
        in an enabled box that reopens the list. */
    method HandleSelect(security: SecurityPrice) returns (chosen: SecurityPrice)
      modifies this
      ensures chosen == security
      ensures query == security.symbol && disabled == old(disabled)
      ensures security.symbol == old(query) ==>
        !isOpen && results == old(results) && highlightIndex == old(highlightIndex)
      ensures security.symbol != old(query) ==>
        results == SearchOutcome(query, disabled).results && isOpen == SearchOutcome(query, disabled).isOpen
      ensures (security.symbol != old(query) && security in OrdersMockData.SecurityPrices &&
               |security.symbol| >= 1 && !disabled) ==> isOpen
      ensures old(Valid()) ==> Valid()
    {
      chosen := security;
      var changed := security.symbol != query;
      query := security.symbol;
      isOpen := false;
      if changed {
        SearchEffect();
        if security in OrdersMockData.SecurityPrices && |security.symbol| >= 1 {
          OwnSymbolIsFound(security);
        }
      }
    }

    /** `handleKeyDown`: returns the security chosen with Enter, if any. */
    method HandleKeyDown(key: Key) returns (chosen: Option<SecurityPrice>)
      modifies this
      ensures !old(isOpen) ==> chosen == None && query == old(query) && results == old(results) &&
                               !isOpen && highlightIndex == old(highlightIndex)
      ensures old(isOpen) && key == ArrowDown ==>
        highlightIndex == MinInt(old(highlightIndex) + 1, |results| - 1) && isOpen && chosen == None
      ensures old(isOpen) && key == ArrowUp ==>
        highlightIndex == MaxInt(old(highlightIndex) - 1, 0) && isOpen && chosen == None
      ensures old(isOpen) && key == Enter && 0 <= old(highlightIndex) < |old(results)| ==>
        chosen == Some(old(results)[old(highlightIndex)]) && query == chosen.value.symbol
      ensures old(isOpen) && key == Enter && 0 <= old(highlightIndex) < |old(results)| && query == old(query) ==>
        !isOpen && results == old(results) && highlightIndex == old(highlightIndex)
      ensures old(isOpen) && key == Enter && 0 <= old(highlightIndex) < |old(results)| && query != old(query) ==>
        results == SearchOutcome(query, disabled).results && isOpen == SearchOutcome(query, disabled).isOpen
      ensures old(isOpen) && key == Enter && !(0 <= old(highlightIndex) < |old(results)|) ==>
        chosen == None && isOpen && query == old(query)
      ensures old(isOpen) && key == Escape ==> chosen == None && !isOpen && query == old(query)
      ensures old(isOpen) && key == OtherKey ==> chosen == None && isOpen && query == old(query)
      ensures key != Enter ==> query == old(query) && results == old(results)
      ensures key == Escape || key == OtherKey ==> highlightIndex == old(highlightIndex)
      ensures disabled == old(disabled)
      ensures old(Valid()) ==> Valid()
    {
      chosen := None;
      if !isOpen {
        return;
      }
      match key {
        case ArrowDown =>
          highlightIndex := MinInt(highlightIndex + 1, |results| - 1);
        case ArrowUp =>
          highlightIndex := MaxInt(highlightIndex - 1, 0);
        case Enter =>
          if 0 <= highlightIndex < |results| {
            var s := HandleSelect(results[highlightIndex]);
            chosen := Some(s);
          }
        case Escape =>
          isOpen := false;
        case OtherKey =>
      }
    }
  }
}
