/** src/components/orders/QuantityInput.tsx: the two linked boxes for the share count
    and the principal. Typing into one box reports both amounts to the order form and
    rewrites the other box; an effect copies the form's amounts back into the box that
    was not typed into last. */
module QuantityInput {
  import opened Prelude

  datatype Field = SharesField | PrincipalField

  /** How a number is printed: `toString()`, `toFixed(2)`, or `toFixed(4)` with the
      trailing zeros (and a bare trailing point) removed. The digits themselves are
      left to the runtime's number printing, which is not part of this model. */
  datatype Format = Plain | TwoDecimals | FourDecimalsTrimmed

  /** The text of a box: what the user typed, a printed number, or empty. */
  datatype Text = Typed(raw: string) | Shown(value: real, format: Format) | Blank

  /** `parseFloat(value) || 0`: text that does not parse (`None`, i.e. NaN) counts as 0. */
  function ParsedOrZero(parsed: Option<real>): (n: real)
    ensures parsed.None? ==> n == 0.0
    ensures parsed.Some? ==> n == parsed.value
  {
    if parsed.Some? then parsed.value else 0.0
  }

  /** `v > 0 ? format(v) : ''`: amounts that are not positive are shown as an empty box. */
  function Display(v: real, f: Format): (t: Text)
    ensures v > 0.0 <==> t.Shown?
    ensures t.Shown? ==> t.value == v && t.format == f
    ensures t.Blank? <==> v <= 0.0
  {
    if v > 0.0 then Shown(v, f) else Blank
  }

  /** `price > 0 ? principal / price : 0`. */
  function SharesFor(principal: real, price: real): (shares: real)
    ensures price > 0.0 ==> shares * price == principal
    ensures price <= 0.0 ==> shares == 0.0
  {
    if price > 0.0 then principal / price else 0.0
  }

  /** The component's state, with the order form's `shares` and `principal` as they
      stand after the callbacks. */
  datatype InputState = InputState(
    sharesInput: Text,
    principalInput: Text,
    lastEdited: Field,
    shares: real,
    principal: real)

  /** `handleSharesChange(value)`, with `parsed` what `parseFloat` made of it. */
  function AfterSharesTyped(st: InputState, value: string, parsed: Option<real>, price: real): (r: InputState)
    ensures r.sharesInput == Typed(value) && r.lastEdited == SharesField
    ensures r.shares == ParsedOrZero(parsed)
    ensures r.principal == r.shares * price
    ensures r.principalInput == Display(r.principal, TwoDecimals)
  {
    var numShares := ParsedOrZero(parsed);
    var newPrincipal := numShares * price;
    InputState(Typed(value), Display(newPrincipal, TwoDecimals), SharesField, numShares, newPrincipal)
  }

  /** `handlePrincipalChange(value)`. */
  function AfterPrincipalTyped(st: InputState, value: string, parsed: Option<real>, price: real): (r: InputState)
    ensures r.principalInput == Typed(value) && r.lastEdited == PrincipalField
    ensures r.principal == ParsedOrZero(parsed)
    ensures price > 0.0 ==> r.shares * price == r.principal
    ensures price <= 0.0 ==> r.shares == 0.0
    ensures r.sharesInput == Display(r.shares, FourDecimalsTrimmed)
  {
    var numPrincipal := ParsedOrZero(parsed);
    var newShares := SharesFor(numPrincipal, price);
    InputState(Display(newShares, FourDecimalsTrimmed), Typed(value), PrincipalField, newShares, numPrincipal)
  }

  /** The sync effect exactly as written: the box not typed into last is overwritten,
      the share count with `toString()`. */
  function SyncedAsWritten(st: InputState): (r: InputState)
    ensures st.lastEdited == SharesField ==> r.sharesInput == st.sharesInput
    ensures st.lastEdited == PrincipalField ==> r.principalInput == st.principalInput
    ensures st.lastEdited != SharesField ==> r.sharesInput == Display(st.shares, Plain)
    ensures st.lastEdited != PrincipalField ==> r.principalInput == Display(st.principal, TwoDecimals)
    ensures r.lastEdited == st.lastEdited && r.shares == st.shares && r.principal == st.principal
  {
    st.(sharesInput := if st.lastEdited != SharesField then Display(st.shares, Plain) else st.sharesInput,
        principalInput := if st.lastEdited != PrincipalField then Display(st.principal, TwoDecimals) else st.principalInput)
  }

  /** The sync effect printing the share count the way the principal handler does. */
  function Synced(st: InputState): (r: InputState)
    ensures st.lastEdited == SharesField ==> r.sharesInput == st.sharesInput
    ensures st.lastEdited == PrincipalField ==> r.principalInput == st.principalInput
    ensures st.lastEdited != SharesField ==> r.sharesInput == Display(st.shares, FourDecimalsTrimmed)
    ensures st.lastEdited != PrincipalField ==> r.principalInput == Display(st.principal, TwoDecimals)
    ensures r.lastEdited == st.lastEdited && r.shares == st.shares && r.principal == st.principal
  {
    st.(sharesInput := if st.lastEdited != SharesField then Display(st.shares, FourDecimalsTrimmed) else st.sharesInput,
        principalInput := if st.lastEdited != PrincipalField then Display(st.principal, TwoDecimals) else st.principalInput)
  }

  /** After a keystroke the effect leaves both boxes as the handler wrote them: the box
      being typed into keeps the raw text and the other box keeps the computed amount. */
  lemma SyncAfterTypingIsStable(st: InputState, value: string, parsed: Option<real>, price: real)
    ensures var a := AfterSharesTyped(st, value, parsed, price); Synced(a) == a
    ensures var b := AfterPrincipalTyped(st, value, parsed, price); Synced(b) == b
  {
    var a := AfterSharesTyped(st, value, parsed, price);
    assert Synced(a).principalInput == Display(a.principal, TwoDecimals) == a.principalInput;
    var b := AfterPrincipalTyped(st, value, parsed, price);
    assert Synced(b).sharesInput == Display(b.shares, FourDecimalsTrimmed) == b.sharesInput;
  }

  /** As written, the effect replaces the 4-decimal share count the principal handler
      printed with the full `toString()` of the quotient: typing 10 into the principal
      box at a price of 3 ends with the shares box showing 10/3 unrounded. */
  lemma SyncAsWrittenReformatsShares()
    ensures var b := AfterPrincipalTyped(InputState(Shown(0.0, Plain), Blank, SharesField, 0.0, 0.0), "10", Some(10.0), 3.0);
      b.sharesInput == Shown(10.0 / 3.0, FourDecimalsTrimmed) &&
      SyncedAsWritten(b).sharesInput == Shown(10.0 / 3.0, Plain) &&
      SyncedAsWritten(b) != b
  {
    var b := AfterPrincipalTyped(InputState(Shown(0.0, Plain), Blank, SharesField, 0.0, 0.0), "10", Some(10.0), 3.0);
    assert b.shares == 10.0 / 3.0;
  }

  /** With a positive price, the shares handler and the principal handler are inverse:
      the principal computed from a share count gives that share count back. */
  lemma HandlersAreInverse(st: InputState, n: real, price: real, v1: string, v2: string)
    requires price > 0.0
    ensures var a := AfterSharesTyped(st, v1, Some(n), price);
      AfterPrincipalTyped(a, v2, Some(a.principal), price).shares == n
  {
    var a := AfterSharesTyped(st, v1, Some(n), price);
    var b := AfterPrincipalTyped(a, v2, Some(a.principal), price);
    Cancel(b.shares, n, price);
  }

  lemma Cancel(x: real, n: real, price: real)
    requires price > 0.0 && x * price == n * price
    ensures x == n
  {
  }

  class QuantityInput {
    var sharesInput: Text
    var principalInput: Text
    var lastEdited: Field
    /** The order form's amounts (props), as the callbacks leave them. */
    var shares: real
    var principal: real
    /** The current price (a prop). */
    var price: real

    function State(): InputState
      reads this
    {
      InputState(sharesInput, principalInput, lastEdited, shares, principal)
    }

    /** Mounting: `shares.toString()` and `principal.toFixed(2)`, then the sync effect,
        which empties the principal box when the principal is 0. */
    constructor(shares: real, principal: real, price: real)
      ensures this.shares == shares && this.principal == principal && this.price == price
      ensures lastEdited == SharesField
      ensures sharesInput == Shown(shares, Plain)
      ensures principalInput == Display(principal, TwoDecimals)
    {
      this.shares := shares;
      this.principal := principal;
      this.price := price;
      lastEdited := SharesField;
      sharesInput := Shown(shares, Plain);
      principalInput := Display(principal, TwoDecimals);
    }

    method HandleSharesChange(value: string, parsed: Option<real>)
      modifies this
      ensures State() == AfterSharesTyped(old(State()), value, parsed, price)
      ensures price == old(price)
    {
      sharesInput := Typed(value);
      lastEdited := SharesField;
      var numShares := ParsedOrZero(parsed);
      shares := numShares;
      var newPrincipal := numShares * price;
      principalInput := Display(newPrincipal, TwoDecimals);
      principal := newPrincipal;
    }

    method HandlePrincipalChange(value: string, parsed: Option<real>)
      modifies this
      ensures State() == AfterPrincipalTyped(old(State()), value, parsed, price)
      ensures price == old(price)
    {
      principalInput := Typed(value);
      lastEdited := PrincipalField;
      var numPrincipal := ParsedOrZero(parsed);
      principal := numPrincipal;
      var newShares := SharesFor(numPrincipal, price);
      sharesInput := Display(newShares, FourDecimalsTrimmed);
      shares := newShares;
    }

    /** The parent changed the amounts (or the price) from outside. */
    method SetProps(newShares: real, newPrincipal: real, newPrice: real)
      modifies this
      ensures State() == old(State()).(shares := newShares, principal := newPrincipal) && price == newPrice
    {
      shares := newShares;
      principal := newPrincipal;
      price := newPrice;
    }

    /** The sync effect as the component runs it: never touches the box typed into
        last, and prints the share count with `toString()` (see `Synced` for the
        effect that keeps the principal handler's formatting). */
    method SyncFromProps()
      modifies this
      ensures State() == SyncedAsWritten(old(State())) && price == old(price)
    {
      if lastEdited != SharesField {
        sharesInput := Display(shares, Plain);
      }
      if lastEdited != PrincipalField {
        principalInput := Display(principal, TwoDecimals);
      }
    }
  }
}
