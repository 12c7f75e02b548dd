/**
 * The one-time payment gateway (WC_Gateway_PayzenStd): its settings, the
 * settings validators and the checks that decide whether it is offered at
 * checkout. The host's stored options, cart and customer are plain inputs.
 */
module StdGateway {
  import opened Php

  const ALL_COUNTRIES := "1"
  const SPECIFIC_COUNTRIES := "2"
  const STD_ID := "payzenstd"
  const REGROUPED_ID := "payzenregroupedother"

  /** A text option, either plain or translated per locale (the "multilangtext" field type). */
  datatype Setting = Text(text: string) | PerLocale(translations: map<string, string>)

  /** The gateway's own stored options and the fields its class fixes. */
  datatype GatewaySettings = GatewaySettings(
    id: string,                          // 'payzenstd' or 'payzenregroupedother'
    title: Setting,
    restrictionCountries: seq<string>,   // the gateway's own country restriction list
    currencies: seq<string>,             // the gateway's own currency list
    allowsSpecific: string,              // option 'allows_specific'
    specificCountries: seq<string>,      // option 'specific_countries' (empty when unset)
    amountMin: string,
    amountMax: string,
    captureDelay: string,
    validationMode: string,
    paymentByToken: string,
    cardDataMode: string,
    paymentCards: Option<seq<string>>,   // None when the option is not an array
    hasCardDataModeField: bool,          // whether the form still declares 'card_data_mode'
    hasSubscriptionsHandler: bool)

  datatype Customer = Customer(id: int, billingCountry: string, shippingCountry: string)

  /** What the cart tells the gateways: its total and the subscription handler's verdicts on it. */
  datatype Cart = Cart(total: real, containsSubscription: bool, containsMultipleSubscriptions: bool)

  /** The checkout the availability checks look at; the base-class checks are given as booleans. */
  datatype Checkout = Checkout(
    baseAvailable: bool,            // WC_Gateway_Payzen::is_available
    baseCurrencySupported: bool,    // WC_Gateway_Payzen::is_supported_currency
    storeCurrency: string,
    customer: Option<Customer>,
    cart: Option<Cart>)

  // ---------------------------------------------------------------------------
  // Titles

  /** The text for a locale: its translation when that is non-empty, else the en_US one (null when missing). */
  function Localized(setting: Setting, locale: string): Option<string> {
    match setting
    case Text(t) => Some(t)
    case PerLocale(m) =>
      if locale in m && Truthy(m[locale]) then Some(m[locale])
      else if "en_US" in m then Some(m["en_US"])
      else None
  }

  /** `get_title`. */
  function Title(s: GatewaySettings, locale: string): Option<string> {
    Localized(s.title, locale)
  }

  /**
   * A translated title is always one of the stored translations: the
   * locale's own when it is non-empty, otherwise the en_US one; the en_US
   * locale always gets the en_US text, and nothing is shown only when the
   * en_US text is missing and the locale has no usable translation.
   */
  lemma LocalizedFallback(m: map<string, string>, locale: string)
    ensures Localized(PerLocale(m), locale).Some? <==>
              (locale in m && Truthy(m[locale])) || "en_US" in m
    ensures "en_US" in m ==> Localized(PerLocale(m), "en_US") == Some(m["en_US"])
    ensures forall t :: Localized(PerLocale(m), locale) == Some(t) ==>
              (locale in m && t == m[locale] && Truthy(t)) || ("en_US" in m && t == m["en_US"])
  {
  }

  /**
   * `get_title` with a translated title: the locale's own text when it is
   * non-empty, otherwise the en_US one, and null only when neither exists;
   * a plain title is shown as it is.
   */
  lemma TitleRule(s: GatewaySettings, locale: string)
    ensures s.title.Text? ==> Title(s, locale) == Some(s.title.text)
    ensures s.title.PerLocale? ==>
              var m := s.title.translations;
              && (Title(s, locale).Some? <==> (locale in m && Truthy(m[locale])) || "en_US" in m)
              && (locale in m && Truthy(m[locale]) ==> Title(s, locale) == Some(m[locale]))
              && (!(locale in m && Truthy(m[locale])) && "en_US" in m ==> Title(s, locale) == Some(m["en_US"]))
  {
    if s.title.PerLocale? {
      LocalizedFallback(s.title.translations, locale);
    }
  }

  // ---------------------------------------------------------------------------
  // Countries offered on the settings screen

  /** Reference definition of `payzen_filter_allowed_countries`. */
  function AllowedCountries(countries: map<string, string>, restriction: seq<string>): map<string, string> {
    if |restriction| == 0 then countries
    else map c | c in countries && c in restriction :: countries[c]
  }

  /** `payzen_filter_allowed_countries`: keep the host's allowed countries that the gateway lists. */
  method FilterAllowedCountries(countries: map<string, string>, restriction: seq<string>)
    returns (allowed: map<string, string>)
    ensures |restriction| == 0 ==> allowed == countries
    ensures |restriction| > 0 ==> forall c :: c in allowed <==> c in countries && c in restriction
    ensures forall c :: c in allowed ==> c in countries && allowed[c] == countries[c]
    ensures allowed == AllowedCountries(countries, restriction)
  {
    if |restriction| == 0 {
      return countries;
    }
    allowed := map[];
    var i := 0;
    while i < |restriction|
      invariant 0 <= i <= |restriction|
      invariant forall c :: c in allowed <==> c in countries && c in restriction[..i]
      invariant forall c :: c in allowed ==> allowed[c] == countries[c]
    {
      var code := restriction[i];
      if code in countries {
        allowed := allowed[code := countries[code]];
      }
      assert restriction[..i + 1] == restriction[..i] + [code];
      i := i + 1;
    }
    assert restriction[..i] == restriction;
  }

  // ---------------------------------------------------------------------------
  // Amount validators

  /** What the amount validators may leave in the stored option. */
  predicate StoredAmount(s: string) {
    s == "" || (Truthy(s) && IsNumeric(s) && Num(s) >= 0.0 && ',' !in s)
  }

  /**
   * `validate_amount_min_field` and `validate_amount_max_field` (identical):
   * empty input clears the option, a decimal comma becomes a point, and a
   * non-numeric or negative value keeps the previously stored option.
   */
  function ValidateAmount(value: string, stored: string): string {
    if !Truthy(value) then ""
    else
      var normalised := ReplaceChar(value, ',', '.');
      if !IsNumeric(normalised) || Num(normalised) < 0.0 then stored else normalised
  }

  lemma ReplaceCharAbsent(s: string, from: char, to: char)
    requires from !in s
    ensures ReplaceChar(s, from, to) == s
  {
    var r := ReplaceChar(s, from, to);
    assert forall i :: 0 <= i < |s| ==> r[i] == s[i];
  }

  /**
   * The validator's three outcomes: an empty submission gives '', a valid one
   * gives the submission with ',' read as '.', which is a non-negative
   * number without a comma, and anything else gives back the stored option.
   */
  lemma ValidateAmountOutcomes(value: string, stored: string)
    ensures !Truthy(value) ==> ValidateAmount(value, stored) == ""
    ensures Truthy(value) ==>
              var n := ReplaceChar(value, ',', '.');
              if IsNumeric(n) && Num(n) >= 0.0
              then ValidateAmount(value, stored) == n && StoredAmount(n)
              else ValidateAmount(value, stored) == stored
  {
    if Truthy(value) {
      var n := ReplaceChar(value, ',', '.');
      assert ',' !in n by {
        forall i | 0 <= i < |n| ensures n[i] != ',' { }
      }
    }
  }

  /** The validator keeps the stored option well formed. */
  lemma ValidateAmountPreservesStored(value: string, stored: string)
    requires StoredAmount(stored)
    ensures StoredAmount(ValidateAmount(value, stored))
  {
    ValidateAmountOutcomes(value, stored);
  }

  /** Saving the settings form twice stores the same amount as saving it once. */
  lemma {:induction false} ValidateAmountIdempotent(value: string, stored: string)
    requires StoredAmount(stored)
    ensures ValidateAmount(ValidateAmount(value, stored), stored) == ValidateAmount(value, stored)
  {
    ValidateAmountPreservesStored(value, stored);
    var r := ValidateAmount(value, stored);
    if r != "" {
      ReplaceCharAbsent(r, ',', '.');
    }
  }

  // ---------------------------------------------------------------------------
  // Availability at checkout

  /** `is_supported_currency`: the gateway's own list decides when it is not empty. */
  predicate CurrencySupported(s: GatewaySettings, c: Checkout) {
    if |s.currencies| > 0 then InArray(c.storeCurrency, s.currencies) else c.baseCurrencySupported
  }

  /** `is_available_for_country`, on the customer's billing country. */
  predicate IsAvailableForCountry(s: GatewaySettings, customer: Option<Customer>) {
    match customer
    case None => false
    case Some(cust) =>
      if s.allowsSpecific == ALL_COUNTRIES
      then |s.restrictionCountries| == 0 || InArray(cust.billingCountry, s.restrictionCountries)
      else InArray(cust.billingCountry, s.specificCountries)
  }

  /** The cart total lies in the gateway's min/max window; an empty bound does not restrict. */
  predicate AmountInWindow(s: GatewaySettings, total: real) {
    !(s.amountMax != "" && total > Num(s.amountMax)) && !(s.amountMin != "" && total < Num(s.amountMin))
  }

  /** `is_available` of the one-time payment gateway. */
  predicate IsAvailable(s: GatewaySettings, c: Checkout) {
    && c.baseAvailable
    && CurrencySupported(s, c)
    && IsAvailableForCountry(s, c.customer)
    && match c.cart
       case None => true
       case Some(cart) =>
         AmountInWindow(s, cart.total) && !(s.hasSubscriptionsHandler && cart.containsMultipleSubscriptions)
  }

  /**
   * The gateway is never offered for a cart above a set maximum, below a set
   * minimum, or holding several subscriptions.
   */
  lemma UnavailableOutsideWindow(s: GatewaySettings, c: Checkout)
    requires c.cart.Some?
    ensures s.amountMax != "" && c.cart.value.total > Num(s.amountMax) ==> !IsAvailable(s, c)
    ensures s.amountMin != "" && c.cart.value.total < Num(s.amountMin) ==> !IsAvailable(s, c)
    ensures s.hasSubscriptionsHandler && c.cart.value.containsMultipleSubscriptions ==> !IsAvailable(s, c)
  {
  }

  /** The amounts for which the gateway is offered form an interval. */
  lemma {:induction false} AvailableTotalsConvex(s: GatewaySettings, c: Checkout, lo: Cart, mid: Cart, hi: Cart)
    requires lo.total <= mid.total <= hi.total
    requires mid.containsMultipleSubscriptions == lo.containsMultipleSubscriptions
    requires IsAvailable(s, c.(cart := Some(lo))) && IsAvailable(s, c.(cart := Some(hi)))
    ensures IsAvailable(s, c.(cart := Some(mid)))
  {
    assert AmountInWindow(s, lo.total) && AmountInWindow(s, hi.total);
    assert AmountInWindow(s, mid.total);
  }

  /**
   * The billing-country rule: no customer means no gateway; in all-countries
   * mode the gateway's own list decides (an empty list admits everyone);
   * otherwise the 'specific_countries' option decides.
   */
  lemma CountryRule(s: GatewaySettings, cust: Customer)
    ensures !IsAvailableForCountry(s, None)
    ensures s.allowsSpecific == ALL_COUNTRIES ==>
              (IsAvailableForCountry(s, Some(cust)) <==>
                 |s.restrictionCountries| == 0 || InArray(cust.billingCountry, s.restrictionCountries))
    ensures s.allowsSpecific != ALL_COUNTRIES ==>
              (IsAvailableForCountry(s, Some(cust)) <==> InArray(cust.billingCountry, s.specificCountries))
  {
  }

  /**
   * In all-countries mode, every country the settings screen offers (the
   * host's allowed countries narrowed by the gateway's list) passes the
   * billing-country check.
   */
  lemma {:induction false} OfferedCountryAccepted(s: GatewaySettings, countries: map<string, string>, cust: Customer)
    requires s.allowsSpecific == ALL_COUNTRIES
    requires cust.billingCountry in AllowedCountries(countries, s.restrictionCountries)
    ensures IsAvailableForCountry(s, Some(cust))
  {
    if |s.restrictionCountries| > 0 {
      var i :| 0 <= i < |s.restrictionCountries| && s.restrictionCountries[i] == cust.billingCountry;
      assert LooseEq(cust.billingCountry, s.restrictionCountries[i]);
      InArrayAt(cust.billingCountry, s.restrictionCountries);
    }
  }

  // ---------------------------------------------------------------------------
  // Payment by token and zero-total orders

  /** `can_use_alias`: a known customer, this very gateway, and the option switched on. */
  predicate CanUseAlias(s: GatewaySettings, custId: int) {
    custId != 0 && s.id == STD_ID && LooseEq(s.paymentByToken, "1")
  }

  /** Only a signed-in customer of the one-time gateway with 'payment_by_token' on may pay by token. */
  lemma AliasRule(s: GatewaySettings, custId: int)
    ensures CanUseAlias(s, custId) ==> custId != 0 && s.id == STD_ID && LooseEq(s.paymentByToken, "1")
    ensures s.id == REGROUPED_ID ==> !CanUseAlias(s, custId)
    ensures custId != 0 && s.id == STD_ID && s.paymentByToken == "1" ==> CanUseAlias(s, custId)
  {
  }

  /**
   * `payzen_order_needs_payment`: the host's verdict, except for a free order
   * paid with this gateway, which needs payment exactly when the cart holds
   * a subscription the handler knows about.
   */
  predicate OrderNeedsPayment(s: GatewaySettings, isActive: bool, orderTotal: real, paymentMethod: string,
                              cartContainsSubscription: bool)
  {
    if orderTotal == 0.0 && paymentMethod == s.id then s.hasSubscriptionsHandler && cartContainsSubscription
    else isActive
  }

  /**
   * Orders paid with another gateway, and paid orders, keep the host's
   * verdict; for a gateway whose settings have no subscriptions handler a free
   * order paid with the gateway never needs payment.
   */
  lemma OrderNeedsPaymentScope(s: GatewaySettings, isActive: bool, orderTotal: real, paymentMethod: string,
                               cartContainsSubscription: bool)
    ensures paymentMethod != s.id ==>
              (OrderNeedsPayment(s, isActive, orderTotal, paymentMethod, cartContainsSubscription) <==> isActive)
    ensures orderTotal != 0.0 ==>
              (OrderNeedsPayment(s, isActive, orderTotal, paymentMethod, cartContainsSubscription) <==> isActive)
    ensures !s.hasSubscriptionsHandler ==> !OrderNeedsPayment(s, isActive, 0.0, s.id, cartContainsSubscription)
    ensures !cartContainsSubscription ==> !OrderNeedsPayment(s, isActive, 0.0, s.id, cartContainsSubscription)
  {
  }
}
