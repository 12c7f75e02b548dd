/**
 * The gateway that offers the "other payment means" of the store (each a
 * card type with its own amount window, countries and overrides) either as
 * one grouped gateway or one by one. Its settings table is cleaned when it is
 * saved, filtered against the cart at checkout, searched by payment-mean
 * code, and the option the customer picked overrides the request fields of
 * the one-time payment gateway.
 */
module Regrouped {
  import opened Php
  import opened PayzenRequest
  import opened StdGateway
  import opened OrderedArrays
  import StdRequest

  const LABEL_PREFIX := "Payment with "

  /** A row of the payment means table as the settings form submits it. */
  datatype SubmittedMean = SubmittedMean(
    labelText: string,
    paymentMean: string,
    amountMin: string,
    amountMax: string,
    countries: Option<seq<string>>,   // the selected country codes; None when the field is absent
    validationMode: string,
    captureDelay: string,
    sendCartData: string)

  /** A stored row: its countries map each code to the country's name (None for a code the store does not know). */
  datatype PaymentMean = PaymentMean(
    labelText: string,
    paymentMean: string,
    amountMin: string,
    amountMax: string,
    countries: map<string, Option<string>>,
    validationMode: string,
    captureDelay: string,
    sendCartData: string)

  // ---------------------------------------------------------------------------
  // validate_payment_means_field

  /** A bound the table refuses: set, and either not numeric or negative. */
  predicate BadAmount(a: string) {
    Truthy(a) && (!IsNumeric(a) || Num(a) < 0.0)
  }

  predicate RowInvalid(r: SubmittedMean) {
    BadAmount(r.amountMin) || BadAmount(r.amountMax)
  }

  /** The test a row must pass to be saved. */
  predicate RowValid(r: SubmittedMean) {
    !RowInvalid(r)
  }

  /** Two rows name the same card type: `in_array` compares payment means loosely. */
  predicate SameMean(a: SubmittedMean, b: SubmittedMean) {
    LooseEq(a.paymentMean, b.paymentMean)
  }

  /** The label given to a row saved without one, from the name of its card type. */
  function DefaultLabel(paymentMean: string, cards: map<string, string>): (text: string)
    ensures Truthy(text)
    ensures paymentMean in cards ==> text == LABEL_PREFIX + cards[paymentMean]
  {
    LABEL_PREFIX + (if paymentMean in cards then cards[paymentMean] else "")
  }

  /** Each selected country code mapped to its name among the store's allowed countries. */
  function CountryNames(codes: seq<string>, allowed: map<string, string>): map<string, Option<string>> {
    map c | c in codes :: if c in allowed then Some(allowed[c]) else None
  }

  /** The loop turning the selected codes into the stored country map. */
  method MapCountries(codes: seq<string>, allowed: map<string, string>) returns (names: map<string, Option<string>>)
    ensures names.Keys == set c | c in codes
    ensures forall c :: c in names ==> names[c] == (if c in allowed then Some(allowed[c]) else None)
    ensures names == CountryNames(codes, allowed)
  {
    names := map[];
    var i := 0;
    while i < |codes|
      invariant 0 <= i <= |codes|
      invariant names == CountryNames(codes[..i], allowed)
    {
      var c := codes[i];
      names := names[c := if c in allowed then Some(allowed[c]) else None];
      assert codes[..i + 1] == codes[..i] + [c];
      i := i + 1;
    }
    assert codes[..i] == codes;
  }

  /** A kept row as it is stored: a label filled in when empty and the countries resolved to names. */
  function Clean(r: SubmittedMean, cards: map<string, string>, allowed: map<string, string>): (m: PaymentMean)
    ensures Truthy(m.labelText)
    ensures Truthy(r.labelText) ==> m.labelText == r.labelText
    ensures !Truthy(r.labelText) ==> m.labelText == DefaultLabel(r.paymentMean, cards)
    ensures m.paymentMean == r.paymentMean && m.amountMin == r.amountMin && m.amountMax == r.amountMax
    ensures m.validationMode == r.validationMode && m.captureDelay == r.captureDelay
    ensures m.sendCartData == r.sendCartData
    ensures r.countries.None? ==> m.countries == map[]
    ensures r.countries.Some? ==> m.countries.Keys == set c | c in r.countries.value
    ensures r.countries.Some? ==> m.countries == CountryNames(r.countries.value, allowed)
  {
    PaymentMean(
      if Truthy(r.labelText) then r.labelText else DefaultLabel(r.paymentMean, cards),
      r.paymentMean, r.amountMin, r.amountMax,
      if r.countries.Some? then CountryNames(r.countries.value, allowed) else map[],
      r.validationMode, r.captureDelay, r.sendCartData)
  }

  function CleanWith(cards: map<string, string>, allowed: map<string, string>): SubmittedMean -> PaymentMean {
    r => Clean(r, cards, allowed)
  }

  /** Row `i` is saved: its amounts are valid and no earlier valid row has a loosely equal payment mean. */
  predicate FirstValid(rows: seq<Entry<SubmittedMean>>, i: int)
    requires 0 <= i < |rows|
  {
    FirstOf(rows, i, RowValid, SameMean)
  }

  /** The table `validate_payment_means_field` stores: the first valid row of each payment mean, cleaned. */
  function Validated(rows: seq<Entry<SubmittedMean>>, cards: map<string, string>,
                     allowed: map<string, string>): seq<Entry<PaymentMean>>
  {
    MapRows(FirstOccurrences(rows, |rows|, RowValid, SameMean), CleanWith(cards, allowed))
  }

  /** The payment means of a list of rows, in order. */
  function Means(t: seq<Entry<SubmittedMean>>): (ms: seq<string>)
    ensures |ms| == |t|
  {
    if t == [] then [] else Means(t[..|t| - 1]) + [t[|t| - 1].row.paymentMean]
  }

  lemma MeansAppend(t: seq<Entry<SubmittedMean>>, e: Entry<SubmittedMean>)
    ensures Means(t + [e]) == Means(t) + [e.row.paymentMean]
  {
    assert (t + [e])[..|t|] == t;
  }

  /** `in_array` on the payment means of a list of rows looks for a row with a loosely equal payment mean. */
  lemma {:induction false} InMeans(r: SubmittedMean, t: seq<Entry<SubmittedMean>>)
    ensures InArray(r.paymentMean, Means(t)) <==> SeenIn(r, t, SameMean)
    decreases |t|
  {
    if t != [] {
      var init := t[..|t| - 1];
      InMeans(r, init);
      assert t == init + [t[|t| - 1]];
      MeansAppend(init, t[|t| - 1]);
      InArrayAppend(r.paymentMean, Means(init), t[|t| - 1].row.paymentMean);
    }
  }

  lemma SameMeanTransitive()
    ensures forall a, b, c :: SameMean(a, b) && SameMean(b, c) ==> SameMean(a, c)
  {
    forall a, b, c | SameMean(a, b) && SameMean(b, c)
      ensures SameMean(a, c)
    {
      LooseEqTransitive(a.paymentMean, b.paymentMean, c.paymentMean);
    }
  }

  /**
   * The loop's list of used payment means is that of the rows saved so far:
   * a payment mean is in it, up to loose equality, exactly when an earlier
   * valid row has it, saved or not.
   */
  lemma UsedMeans(rows: seq<Entry<SubmittedMean>>, i: int, r: SubmittedMean)
    requires 0 <= i <= |rows|
    ensures InArray(r.paymentMean, Means(FirstOccurrences(rows, i, RowValid, SameMean)))
            <==> SeenBefore(rows, i, r, RowValid, SameMean)
  {
    InMeans(r, FirstOccurrences(rows, i, RowValid, SameMean));
    SameMeanTransitive();
    FirstOccurrencesSeen(rows, i, r, RowValid, SameMean);
  }

  /** One turn of the loop: row `i` is saved exactly when it is valid and its payment mean is not used yet. */
  lemma ValidateStep(value: seq<Entry<SubmittedMean>>, i: int)
    requires 0 <= i < |value|
    ensures var prev := FirstOccurrences(value, i, RowValid, SameMean);
            FirstOccurrences(value, i + 1, RowValid, SameMean)
            == prev + if !RowInvalid(value[i].row) && !InArray(value[i].row.paymentMean, Means(prev))
                      then [value[i]] else []
  {
    UsedMeans(value, i, value[i].row);
  }

  /** The body of the loop for a saved row: the default label and the country names. */
  method CleanRow(option: SubmittedMean, cards: map<string, string>, allowed: map<string, string>)
    returns (cleaned: PaymentMean)
    ensures cleaned == Clean(option, cards, allowed)
  {
    var labelText := option.labelText;
    if !Truthy(option.labelText) {
      labelText := DefaultLabel(option.paymentMean, cards);
    }
    var countries: map<string, Option<string>> := map[];
    if option.countries.Some? {
      countries := MapCountries(option.countries.value, allowed);
    }
    cleaned := PaymentMean(labelText, option.paymentMean, option.amountMin, option.amountMax,
                           countries, option.validationMode, option.captureDelay, option.sendCartData);
  }

  /**
   * One turn of the loop of `validate_payment_means_field`, on the row at
   * position `i`: a row with a bad amount is not saved, a row whose payment
   * mean is already used is not saved, any other row is saved cleaned and
   * its payment mean is used.
   */
  method ValidateRow(value: seq<Entry<SubmittedMean>>, i: int, usedCards: seq<string>, kept: seq<Entry<PaymentMean>>,
                     cards: map<string, string>, allowed: map<string, string>)
    returns (usedCards': seq<string>, kept': seq<Entry<PaymentMean>>)
    requires 0 <= i < |value|
    requires usedCards == Means(FirstOccurrences(value, i, RowValid, SameMean))
    requires kept == MapRows(FirstOccurrences(value, i, RowValid, SameMean), CleanWith(cards, allowed))
    ensures usedCards' == Means(FirstOccurrences(value, i + 1, RowValid, SameMean))
    ensures kept' == MapRows(FirstOccurrences(value, i + 1, RowValid, SameMean), CleanWith(cards, allowed))
  {
    var code := value[i].code;
    var option := value[i].row;
    ghost var prev := FirstOccurrences(value, i, RowValid, SameMean);
    ValidateStep(value, i);
    usedCards', kept' := usedCards, kept;
    if RowInvalid(option) {
      // not saved
      assert FirstOccurrences(value, i + 1, RowValid, SameMean) == prev;
    } else if InArray(option.paymentMean, usedCards) {
      // already saved
      assert FirstOccurrences(value, i + 1, RowValid, SameMean) == prev;
    } else {
      assert FirstOccurrences(value, i + 1, RowValid, SameMean) == prev + [value[i]];
      MeansAppend(prev, value[i]);
      MapRowsAppend(prev, value[i], CleanWith(cards, allowed));
      usedCards' := usedCards + [option.paymentMean];
      var cleaned := CleanRow(option, cards, allowed);
      kept' := kept + [Entry(code, cleaned)];
    }
  }

  /**
   * `validate_payment_means_field`: rows with a bad amount are dropped, a row
   * whose payment mean was already kept is dropped, and every kept row gets
   * its default label and its country names.
   */
  method ValidatePaymentMeans(value: seq<Entry<SubmittedMean>>, cards: map<string, string>,
                              allowed: map<string, string>)
    returns (kept: seq<Entry<PaymentMean>>)
    ensures kept == Validated(value, cards, allowed)
  {
    kept := [];
    var usedCards: seq<string> := [];
    var i := 0;
    while i < |value|
      invariant 0 <= i <= |value|
      invariant usedCards == Means(FirstOccurrences(value, i, RowValid, SameMean))
      invariant kept == MapRows(FirstOccurrences(value, i, RowValid, SameMean), CleanWith(cards, allowed))
    {
      usedCards, kept := ValidateRow(value, i, usedCards, kept, cards, allowed);
      i := i + 1;
    }
  }

  /** Every stored row is a saved submitted row, cleaned, under its own key. */
  lemma StoredRowsKept(rows: seq<Entry<SubmittedMean>>, cards: map<string, string>, allowed: map<string, string>,
                       e: Entry<PaymentMean>)
    returns (j: int)
    requires e in Validated(rows, cards, allowed)
    ensures 0 <= j < |rows| && FirstValid(rows, j)
    ensures e == Entry(rows[j].code, Clean(rows[j].row, cards, allowed))
  {
    var t := FirstOccurrences(rows, |rows|, RowValid, SameMean);
    var v := Validated(rows, cards, allowed);
    var p :| 0 <= p < |v| && v[p] == e;
    MapRowsAt(t, CleanWith(cards, allowed), p);
    j := FirstOccurrencesOrigin(rows, |rows|, RowValid, SameMean, p);
  }

  /** Every saved submitted row is stored, cleaned, under its own key. */
  lemma KeptRowsStored(rows: seq<Entry<SubmittedMean>>, cards: map<string, string>, allowed: map<string, string>,
                       j: int)
    requires 0 <= j < |rows| && FirstValid(rows, j)
    ensures Entry(rows[j].code, Clean(rows[j].row, cards, allowed)) in Validated(rows, cards, allowed)
  {
    var t := FirstOccurrences(rows, |rows|, RowValid, SameMean);
    FirstOccurrencesComplete(rows, |rows|, RowValid, SameMean, j);
    var p :| 0 <= p < |t| && t[p] == rows[j];
    MapRowsAt(t, CleanWith(cards, allowed), p);
  }

  /** Two rows of a table with loosely equal payment means are the same row. */
  predicate UniqueMeans(t: seq<Entry<PaymentMean>>) {
    forall a, b :: a in t && b in t && LooseEq(a.row.paymentMean, b.row.paymentMean) ==> a == b
  }

  /** Stored rows with loosely equal payment means are the same row. */
  lemma ValidatedUnique(rows: seq<Entry<SubmittedMean>>, cards: map<string, string>, allowed: map<string, string>)
    ensures UniqueMeans(Validated(rows, cards, allowed))
  {
    var t := FirstOccurrences(rows, |rows|, RowValid, SameMean);
    var v := Validated(rows, cards, allowed);
    forall a, b | SameMean(a, b)
      ensures SameMean(b, a)
    {
      LooseEqSymmetric(a.paymentMean, b.paymentMean);
    }
    FirstOccurrencesDistinct(rows, |rows|, RowValid, SameMean);
    forall a, b | a in v && b in v && LooseEq(a.row.paymentMean, b.row.paymentMean)
      ensures a == b
    {
      var p :| 0 <= p < |v| && v[p] == a;
      var q :| 0 <= q < |v| && v[q] == b;
      MapRowsAt(t, CleanWith(cards, allowed), p);
      MapRowsAt(t, CleanWith(cards, allowed), q);
      if p != q {
        assert false;
      }
    }
  }

  /** Every stored row has a label and bounds that are empty or non-negative numbers. */
  lemma StoredRowsWellFormed(rows: seq<Entry<SubmittedMean>>, cards: map<string, string>,
                             allowed: map<string, string>, e: Entry<PaymentMean>)
    requires e in Validated(rows, cards, allowed)
    ensures Truthy(e.row.labelText)
    ensures !BadAmount(e.row.amountMin) && !BadAmount(e.row.amountMax)
  {
    var j := StoredRowsKept(rows, cards, allowed, e);
  }

  /** A row with a bad amount is never saved, whatever comes before it. */
  lemma DropsBadAmounts(rows: seq<Entry<SubmittedMean>>, j: int)
    requires 0 <= j < |rows|
    requires BadAmount(rows[j].row.amountMin) || BadAmount(rows[j].row.amountMax)
    ensures !FirstValid(rows, j)
  {
  }

  /** Of two valid rows with loosely equal payment means, the later one is not saved. */
  lemma FirstOccurrenceKept(rows: seq<Entry<SubmittedMean>>, i: int, j: int)
    requires 0 <= i < j < |rows|
    requires !RowInvalid(rows[i].row) && !RowInvalid(rows[j].row)
    requires LooseEq(rows[i].row.paymentMean, rows[j].row.paymentMean)
    ensures !FirstValid(rows, j)
  {
    LooseEqSymmetric(rows[i].row.paymentMean, rows[j].row.paymentMean);
    LaterDuplicateDropped(rows, i, j, RowValid, SameMean);
  }

  // ---------------------------------------------------------------------------
  // get_available_options

  /** The option's bounds admit the cart total and its countries are empty or hold the customer's country. */
  predicate Admits(m: PaymentMean, total: real, country: string) {
    && (!Truthy(m.amountMin) || total >= Num(m.amountMin))
    && (!Truthy(m.amountMax) || total <= Num(m.amountMax))
    && (|m.countries| == 0 || country in m.countries)
  }

  function AdmitsFor(total: real, country: string): PaymentMean -> bool {
    m => Admits(m, total, country)
  }

  /** The options of the stored table offered for this cart total and shipping country, in table order. */
  function Available(options: seq<Entry<PaymentMean>>, total: real, country: string): seq<Entry<PaymentMean>> {
    Filter(options, AdmitsFor(total, country))
  }

  /** `get_available_options`. */
  method GetAvailableOptions(options: seq<Entry<PaymentMean>>, total: real, country: string)
    returns (enabled: seq<Entry<PaymentMean>>)
    ensures enabled == Available(options, total, country)
  {
    enabled := [];
    var i := 0;
    while i < |options|
      invariant 0 <= i <= |options|
      invariant enabled == Filter(options[..i], AdmitsFor(total, country))
    {
      FilterStep(options, i, AdmitsFor(total, country));
      if Admits(options[i].row, total, country) {
        enabled := enabled + [options[i]];
      }
      i := i + 1;
    }
    assert options[..i] == options;
  }

  /**
   * An entry is offered exactly when it is an entry of the stored table
   * (same key, same row) that admits the cart total and the customer's country.
   */
  lemma AvailableMembers(options: seq<Entry<PaymentMean>>, total: real, country: string, e: Entry<PaymentMean>)
    ensures e in Available(options, total, country) <==> e in options && Admits(e.row, total, country)
  {
    FilterMembers(options, AdmitsFor(total, country), e);
  }

  /** Filtering keeps payment means unique. */
  lemma AvailableUnique(options: seq<Entry<PaymentMean>>, total: real, country: string)
    requires UniqueMeans(options)
    ensures UniqueMeans(Available(options, total, country))
  {
    FilterSubset(options, AdmitsFor(total, country));
  }

  // ---------------------------------------------------------------------------
  // get_mean

  /**
   * `$option['payment_mean'] == $code`: a stored code loosely equals the
   * selected one; with nothing selected (false) every falsy code matches.
   */
  predicate MatchesCode(m: PaymentMean, code: Option<string>) {
    match code
    case None => !Truthy(m.paymentMean)
    case Some(c) => LooseEq(m.paymentMean, c)
  }

  /** The first option whose payment mean matches `code`, or None (false) when none does. */
  function FirstMatch(options: seq<Entry<PaymentMean>>, code: Option<string>): Option<PaymentMean> {
    if options == [] then None
    else if MatchesCode(options[0].row, code) then Some(options[0].row)
    else FirstMatch(options[1..], code)
  }

  /**
   * What `FirstMatch` finds: the row of the first matching option, and
   * nothing exactly when no option matches.
   */
  lemma {:induction false} FirstMatchSpec(options: seq<Entry<PaymentMean>>, code: Option<string>)
    ensures var r := FirstMatch(options, code);
            r.Some? ==> exists i :: 0 <= i < |options| && options[i].row == r.value && MatchesCode(r.value, code)
                                    && forall j :: 0 <= j < i ==> !MatchesCode(options[j].row, code)
    ensures FirstMatch(options, code).None? <==> forall i :: 0 <= i < |options| ==> !MatchesCode(options[i].row, code)
  {
    if options != [] && !MatchesCode(options[0].row, code) {
      FirstMatchSpec(options[1..], code);
      assert forall j :: 1 <= j < |options| ==> options[j] == options[1..][j - 1];
      var r := FirstMatch(options, code);
      if r.Some? {
        var i :| 0 <= i < |options[1..]| && options[1..][i].row == r.value && MatchesCode(r.value, code)
                 && forall j :: 0 <= j < i ==> !MatchesCode(options[1..][j].row, code);
        assert options[i + 1].row == r.value;
        forall j | 0 <= j < i + 1
          ensures !MatchesCode(options[j].row, code)
        {
          if j > 0 {
            assert options[j] == options[1..][j - 1];
          }
        }
      }
    }
  }

  /** The search from position `i` either stops there or goes on from `i + 1`. */
  lemma FirstMatchStep(t: seq<Entry<PaymentMean>>, i: int, code: Option<string>)
    requires 0 <= i < |t|
    ensures FirstMatch(t[i..], code)
            == if MatchesCode(t[i].row, code) then Some(t[i].row) else FirstMatch(t[i + 1..], code)
  {
    assert t[i..][0] == t[i] && t[i..][1..] == t[i + 1..];
  }

  /** `get_mean`: the available options are searched in order and the first match is returned. */
  method GetMean(options: seq<Entry<PaymentMean>>, total: real, country: string, code: Option<string>)
    returns (r: Option<PaymentMean>)
    ensures r == FirstMatch(Available(options, total, country), code)
  {
    var available := GetAvailableOptions(options, total, country);
    var i := 0;
    assert available[0..] == available;
    while i < |available|
      invariant 0 <= i <= |available|
      invariant FirstMatch(available[i..], code) == FirstMatch(available, code)
    {
      FirstMatchStep(available, i, code);
      if MatchesCode(available[i].row, code) {
        return Some(available[i].row);
      }
      i := i + 1;
    }
    assert available[i..] == [];
    return None;
  }

  /**
   * In a table with unique payment means, the option found for a selected
   * code is the only one that matches it.
   */
  lemma FirstMatchUnique(options: seq<Entry<PaymentMean>>, c: string, e: Entry<PaymentMean>)
    requires UniqueMeans(options)
    requires e in options && MatchesCode(e.row, Some(c))
    ensures FirstMatch(options, Some(c)) == Some(e.row)
  {
    var r := FirstMatch(options, Some(c));
    FirstMatchSpec(options, Some(c));
    var k :| 0 <= k < |options| && options[k] == e;
    assert r.Some?;
    var i :| 0 <= i < |options| && options[i].row == r.value && MatchesCode(r.value, Some(c));
    LooseEqSymmetric(e.row.paymentMean, c);
    LooseEqTransitive(options[i].row.paymentMean, c, e.row.paymentMean);
    assert options[i] == e;
  }

  /** On a stored table, the option `get_mean` finds for a selected code is the only available one with it. */
  lemma GetMeanUnique(rows: seq<Entry<SubmittedMean>>, cards: map<string, string>, allowed: map<string, string>,
                      total: real, country: string, c: string, e: Entry<PaymentMean>)
    requires e in Available(Validated(rows, cards, allowed), total, country)
    requires MatchesCode(e.row, Some(c))
    ensures FirstMatch(Available(Validated(rows, cards, allowed), total, country), Some(c)) == Some(e.row)
  {
    ValidatedUnique(rows, cards, allowed);
    AvailableUnique(Validated(rows, cards, allowed), total, country);
    FirstMatchUnique(Available(Validated(rows, cards, allowed), total, country), c, e);
  }

  // ---------------------------------------------------------------------------
  // Availability

  /**
   * `regroup_other_payment_means`. `options` is None without a cart;
   * `recentWoo` tells whether WooCommerce is 2.3.0 or later.
   */
  predicate RegroupOtherPaymentMeans(recentWoo: bool, regroupEnabled: string, options: Option<seq<Entry<PaymentMean>>>) {
    if recentWoo then
      if regroupEnabled != "yes" then false
      else if options.Some? && |options.value| <= 1 then false
      else true
    else if options.Some? && |options.value| == 0 then false
    else true
  }

  /**
   * The customer's shipping country, which `get_available_options` reads.
   * Without a customer the one-time gateway's checks already fail, so the
   * options are never looked at; '' stands in for the missing country.
   */
  function ShippingCountry(c: Checkout): string {
    if c.customer.Some? then c.customer.value.shippingCountry else ""
  }

  /** `is_available`: the one-time gateway's checks and the regroup rule on the options this cart admits. */
  predicate IsAvailable(s: GatewaySettings, c: Checkout, recentWoo: bool, regroupEnabled: string,
                        table: seq<Entry<PaymentMean>>)
  {
    && StdGateway.IsAvailable(s, c)
    && RegroupOtherPaymentMeans(recentWoo, regroupEnabled,
                                if c.cart.Some? then Some(Available(table, c.cart.value.total, ShippingCountry(c)))
                                else None)
  }

  /**
   * The grouped gateway is offered only with regrouping switched on (on
   * WooCommerce 2.3.0 and later) and at least two options for the cart, or
   * (before 2.3.0) at least one; it always needs the one-time gateway's checks.
   */
  lemma RegroupRule(s: GatewaySettings, c: Checkout, recentWoo: bool, regroupEnabled: string,
                    table: seq<Entry<PaymentMean>>)
    ensures IsAvailable(s, c, recentWoo, regroupEnabled, table) ==> StdGateway.IsAvailable(s, c)
    ensures recentWoo && regroupEnabled != "yes" ==> !IsAvailable(s, c, recentWoo, regroupEnabled, table)
    ensures recentWoo && c.cart.Some? ==>
              (IsAvailable(s, c, recentWoo, regroupEnabled, table)
               <==> StdGateway.IsAvailable(s, c) && regroupEnabled == "yes"
                    && |Available(table, c.cart.value.total, ShippingCountry(c))| >= 2)
    ensures !recentWoo && c.cart.Some? ==>
              (IsAvailable(s, c, recentWoo, regroupEnabled, table)
               <==> StdGateway.IsAvailable(s, c) && |Available(table, c.cart.value.total, ShippingCountry(c))| > 0)
    ensures c.cart.None? ==>
              (IsAvailable(s, c, recentWoo, regroupEnabled, table)
               <==> StdGateway.IsAvailable(s, c) && (recentWoo ==> regroupEnabled == "yes"))
  {
  }

  // ---------------------------------------------------------------------------
  // payzen_fill_request

  /**
   * The selected option's overrides on the request the one-time gateway
   * filled. Without an option (get_mean gave false) every look-up reads null,
   * and null is not '-1': 'validation_mode' is set to null.
   */
  function OptionOverrides(m: map<FieldName, Field>, option: Option<PaymentMean>, cartData: map<FieldName, Field>)
    : map<FieldName, Field>
  {
    match option
    case None => m[ValidationMode := Null]
    case Some(o) =>
      var withDelay := if IsNumeric(o.captureDelay) then m[CaptureDelay := Str(o.captureDelay)] else m;
      var withMode := if o.validationMode != "-1" then withDelay[ValidationMode := Str(o.validationMode)]
                      else withDelay;
      if o.sendCartData == "y" then withMode + cartData else withMode
  }

  /** The request after the grouped gateway's `payzen_fill_request`, from the one the parent filled. */
  function Overridden(filled: map<FieldName, Field>, selectedCard: Option<string>, option: Option<PaymentMean>,
                      cartData: map<FieldName, Field>): map<FieldName, Field>
  {
    OptionOverrides(filled[PaymentCards := StdRequest.TransientField(selectedCard)], option, cartData)
  }

  /**
   * The overrides field by field: 'payment_cards' is the selected card;
   * 'capture_delay' is the option's when it is numeric; 'validation_mode' is
   * the option's unless it is '-1', and null without an option; the cart
   * fields are added only when the option sends cart data; every other
   * field keeps the value the one-time gateway gave it.
   */
  lemma OverrideRules(filled: map<FieldName, Field>, selectedCard: Option<string>, option: Option<PaymentMean>,
                      cartData: map<FieldName, Field>, k: FieldName)
    requires !(k in cartData && option.Some? && option.value.sendCartData == "y")
    ensures var r := Overridden(filled, selectedCard, option, cartData);
            && (k == PaymentCards ==> k in r && r[k] == StdRequest.TransientField(selectedCard))
            && (k == CaptureDelay ==>
                  if option.Some? && IsNumeric(option.value.captureDelay)
                  then k in r && r[k] == Str(option.value.captureDelay)
                  else StdRequest.Keeps(filled, r, k))
            && (k == ValidationMode ==>
                  if option.None? then k in r && r[k] == Null
                  else if option.value.validationMode != "-1" then k in r && r[k] == Str(option.value.validationMode)
                  else StdRequest.Keeps(filled, r, k))
            && (k != PaymentCards && k != CaptureDelay && k != ValidationMode ==> StdRequest.Keeps(filled, r, k))
  {
  }

  /** With an option that sends cart data, every cart field is in the request as the cart gives it. */
  lemma CartDataSent(filled: map<FieldName, Field>, selectedCard: Option<string>, option: PaymentMean,
                     cartData: map<FieldName, Field>, k: FieldName)
    requires option.sendCartData == "y" && k in cartData
    ensures var r := Overridden(filled, selectedCard, Some(option), cartData);
            k in r && r[k] == cartData[k]
  {
  }

  /**
   * The settings of the grouped gateway: its own id, no subscriptions
   * handler (its constructor never sets one) and no 'card_data_mode' field
   * (its form drops it).
   */
  predicate GroupedSettings(s: GatewaySettings) {
    s.id == REGROUPED_ID && !s.hasSubscriptionsHandler && !s.hasCardDataModeField
  }

  /** The grouped gateway never pays by token nor subscribes: the token stage sets nothing. */
  lemma NoTokenDecision(s: GatewaySettings, o: StdRequest.Order, h: StdRequest.Host)
    requires GroupedSettings(s)
    ensures StdRequest.Decision(s, o, h) == StdRequest.TokenDecision(None, None)
  {
    AliasRule(s, o.userId);
    StdRequest.PageActionTable(o.total, false, h.savedIdentifier, h.useIdentifier);
  }

  /**
   * `payzen_fill_request` of the grouped gateway: the one-time gateway's
   * request (which stops when the store currency is unknown), then the
   * selected card and the overrides of the option `get_mean` finds for it
   * among the options the session's cart and customer admit. `cartData` is
   * what `send_cart_data` would set.
   */
  method FillRequest(req: Request, s: GatewaySettings, g: StdRequest.GeneralConfig, o: StdRequest.Order,
                     h: StdRequest.Host, table: seq<Entry<PaymentMean>>, cart: Cart, customer: Customer,
                     cartData: map<FieldName, Field>)
    returns (ok: bool)
    requires GroupedSettings(s)
    modifies req
    ensures ok <==> h.currencyNum.Some?
    ensures !ok ==> req.fields == old(req.fields)
    ensures ok ==> req.fields == Overridden(StdRequest.Filled(old(req.fields), s, g, o, h, h.currencyNum.value),
                                            h.selectedCard,
                                            FirstMatch(Available(table, cart.total, customer.shippingCountry), h.selectedCard),
                                            cartData)
  {
    ok := StdRequest.FillRequest(req, s, g, o, h);
    if !ok {
      return;
    }
    var selectedCard := h.selectedCard;
    req.Set(PaymentCards, StdRequest.TransientField(selectedCard));
    var option := GetMean(table, cart.total, customer.shippingCountry, selectedCard);

    if option.Some? && IsNumeric(option.value.captureDelay) {
      req.Set(CaptureDelay, Str(option.value.captureDelay));
    }
    if option.None? {
      req.Set(ValidationMode, Null);
    } else if option.value.validationMode != "-1" {
      req.Set(ValidationMode, Str(option.value.validationMode));
    }
    if option.Some? && option.value.sendCartData == "y" {
      req.SetFromArray(cartData);
    }
  }
}
