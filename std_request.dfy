/**
 * `payzen_fill_request` of the one-time payment gateway: the order, the
 * store's general PayZen configuration and the gateway's own options become
 * the fields of the outbound request. The decisions it takes (3-D Secure,
 * capture delay and validation mode overrides, the phone number, the
 * subscription rule and the token page action) are functions here, and the
 * method that fills the request is proved to leave exactly the fields they
 * describe.
 */
module StdRequest {
  import opened Php
  import opened PayzenRequest
  import opened StdGateway
  import Subscription

  /** The general options copied one by one into the request, in the order the source copies them. */
  const CONFIG_KEYS: seq<FieldName> := [
    SiteId, KeyTest, KeyProd, CtxMode, PlatformUrl, CaptureDelay, ValidationMode,
    RedirectSuccessTimeout, RedirectErrorTimeout, ReturnMode, SignAlgo
  ]

  /** The store-wide PayZen options the request reads. */
  datatype GeneralConfig = GeneralConfig(
    threedsMinAmount: string,
    language: string,
    availableLanguages: Option<seq<string>>,   // None when the option is not an array
    redirectEnabled: string,
    redirectSuccessMessage: Setting,
    redirectErrorMessage: Setting,
    params: map<FieldName, string>)            // the CONFIG_KEYS options; a missing one reads as null

  datatype Address = Address(
    firstName: string, lastName: string, address1: string, address2: string,
    city: string, state: string, country: string, postcode: string)

  /**
   * What the request takes from the order. The amounts in minor units are
   * the payment library's conversions of the order's amounts.
   */
  datatype Order = Order(
    id: string, userId: int, orderKey: string, email: string, phone: string,
    billing: Address, shipping: Address, total: real,
    amountMinor: string, shippingMinor: string, taxMinor: string)

  /** `subscription_info` of the subscription handler. */
  datatype SubInfo = SubInfo(
    amountMinor: string, frequency: string, interval: string, endDate: Option<string>,
    effectDate: string, initAmount: real, initAmountMinor: string, initNumber: string)

  /** Everything else the request reads from the host and the payment library. */
  datatype Host = Host(
    currencyNum: Option<string>,          // None when the library does not know the store currency
    contrib: string, blogId: string, urlReturn: string,
    locale: string, supportedLanguages: set<string>,
    cartContainsSubscription: bool,
    subscription: Option<SubInfo>,        // None when the handler reports nothing
    savedIdentifier: string,              // the customer's saved token ('' when none)
    selectedCard: Option<string>,         // the card chosen at checkout (None when nothing was stored)
    useIdentifier: Option<string>)        // the customer's "pay with my saved card" flag

  // ---------------------------------------------------------------------------
  // Phone number

  predicate IsPhoneSeparator(c: char) {
    c == '(' || c == '-' || c == ' ' || c == ')'
  }

  /** 'cust_phone': the billing phone without brackets, dashes and spaces. */
  function StripPhone(s: string): (r: string)
    ensures forall i :: 0 <= i < |r| ==> !IsPhoneSeparator(r[i])
    ensures |r| <= |s|
  {
    if s == [] then [] else (if IsPhoneSeparator(s[0]) then [] else [s[0]]) + StripPhone(s[1..])
  }

  /** A separator is deleted, not replaced; every other character is kept as it is. */
  lemma StripPhoneChar(c: char)
    ensures StripPhone([c]) == if IsPhoneSeparator(c) then [] else [c]
  {
    assert [c][1..] == [];
  }

  /** Stripping works piece by piece, so the kept characters stay in their order. */
  lemma {:induction false} StripPhoneConcat(a: string, b: string)
    ensures StripPhone(a + b) == StripPhone(a) + StripPhone(b)
  {
    if a == [] {
      assert a + b == b;
    } else {
      assert (a + b)[0] == a[0];
      assert (a + b)[1..] == a[1..] + b;
      StripPhoneConcat(a[1..], b);
    }
  }

  /** A phone number without separators is sent unchanged, and only such a number is. */
  lemma {:induction false} StripPhoneFixedPoints(s: string)
    ensures StripPhone(s) == s <==> forall i :: 0 <= i < |s| ==> !IsPhoneSeparator(s[i])
  {
    if s != [] {
      StripPhoneFixedPoints(s[1..]);
      if IsPhoneSeparator(s[0]) {
        assert |StripPhone(s)| < |s| by {
          assert StripPhone(s) == StripPhone(s[1..]);
        }
      } else {
        assert StripPhone(s) == [s[0]] + StripPhone(s[1..]);
        if forall i :: 0 <= i < |s| ==> !IsPhoneSeparator(s[i]) {
          assert forall i :: 0 <= i < |s[1..]| ==> !IsPhoneSeparator(s[1..][i]) by {
            forall i | 0 <= i < |s[1..]| ensures !IsPhoneSeparator(s[1..][i]) {
              assert s[1..][i] == s[i + 1];
            }
          }
        }
        if StripPhone(s) == s {
          assert StripPhone(s[1..]) == s[1..];
        }
      }
    }
  }

  /** Stripping twice is stripping once. */
  lemma StripPhoneIdempotent(s: string)
    ensures StripPhone(StripPhone(s)) == StripPhone(s)
  {
    StripPhoneFixedPoints(StripPhone(s));
  }

  // ---------------------------------------------------------------------------
  // 3-D Secure and the module overrides

  /** 'threeds_mpi': '2' (3-D Secure off) for an order below the configured minimum, null otherwise. */
  function ThreedsMpiValue(orderTotal: real, minAmount: string): Field {
    if minAmount != "" && orderTotal < Num(minAmount) then Str("2") else Null
  }

  /**
   * 3-D Secure is switched off exactly for totals under a set minimum, and
   * a smaller order is never asked for more 3-D Secure than a larger one.
   */
  lemma ThreedsRule(orderTotal: real, smaller: real, minAmount: string)
    ensures ThreedsMpiValue(orderTotal, minAmount) == Str("2") <==> minAmount != "" && orderTotal < Num(minAmount)
    ensures ThreedsMpiValue(orderTotal, minAmount) != Str("2") ==> ThreedsMpiValue(orderTotal, minAmount) == Null
    ensures smaller <= orderTotal && ThreedsMpiValue(orderTotal, minAmount) == Str("2") ==>
              ThreedsMpiValue(smaller, minAmount) == Str("2")
  {
  }

  /** A general option as the request receives it: the stored string, or null when unset. */
  function Lookup(params: map<FieldName, string>, k: FieldName): Field {
    if k in params then Str(params[k]) else Null
  }

  /** 'capture_delay': the module's value when it is numeric, else the value already in the request. */
  function CaptureDelayValue(current: Field, moduleValue: string): Field {
    if IsNumeric(moduleValue) then Str(moduleValue) else current
  }

  /** 'validation_mode': the module's value unless it is '-1' ("use the general configuration"). */
  function ValidationModeValue(current: Field, moduleValue: string): Field {
    if moduleValue != "-1" then Str(moduleValue) else current
  }

  // ---------------------------------------------------------------------------
  // Subscriptions and payment by token

  /** What the request says about tokens: the page action and the identifier to send, if any. */
  datatype TokenDecision = TokenDecision(pageAction: Option<string>, identifier: Option<string>)

  /** Whether the customer kept the "pay with my registered means of payment" choice. */
  predicate UsesIdentifier(flag: Option<string>) {
    flag.Some? && Truthy(flag.value)
  }

  /** The 'page_action' and 'identifier' decision of `payzen_fill_request`. */
  function TokenFields(subscription: bool, orderTotal: real, aliasAllowed: bool,
                       savedIdentifier: string, useIdentifier: Option<string>): TokenDecision
  {
    if subscription then
      if orderTotal > 0.0 then TokenDecision(Some("REGISTER_PAY_SUBSCRIBE"), None)
      else if Truthy(savedIdentifier) then TokenDecision(Some("SUBSCRIBE"), Some(savedIdentifier))
      else TokenDecision(Some("REGISTER_SUBSCRIBE"), None)
    else if aliasAllowed then
      if Truthy(savedIdentifier) then
        TokenDecision(if UsesIdentifier(useIdentifier) then None else Some("REGISTER_UPDATE_PAY"), Some(savedIdentifier))
      else TokenDecision(Some("ASK_REGISTER_PAY"), None)
    else TokenDecision(None, None)
  }

  /**
   * Properties of the token decision that do not depend on how the nested
   * conditionals are written: an identifier is only ever the customer's own
   * saved one; a payment with the saved token and no registration happens
   * only when token payment is allowed and the customer chose it; a
   * REGISTER_* action never comes with an identifier except to update it;
   * and nothing is decided when there is neither a subscription nor token
   * payment.
   */
  lemma TokenDecisionFacts(subscription: bool, orderTotal: real, aliasAllowed: bool,
                           savedIdentifier: string, useIdentifier: Option<string>)
    ensures var d := TokenFields(subscription, orderTotal, aliasAllowed, savedIdentifier, useIdentifier);
            && (d.identifier.Some? ==> d.identifier.value == savedIdentifier && Truthy(savedIdentifier))
            && (d.identifier.Some? && d.pageAction.None? ==>
                  !subscription && aliasAllowed && UsesIdentifier(useIdentifier))
            && (d.pageAction.Some? && d.identifier.Some? ==>
                  d.pageAction.value in {"SUBSCRIBE", "REGISTER_UPDATE_PAY"})
            && (d.pageAction.None? && d.identifier.None? <==> !subscription && !aliasAllowed)
            && (subscription ==> d.pageAction.Some?)
  {
  }

  /** The page-action table, row by row. */
  lemma PageActionTable(orderTotal: real, aliasAllowed: bool, savedIdentifier: string, useIdentifier: Option<string>)
    ensures orderTotal > 0.0 ==>
              TokenFields(true, orderTotal, aliasAllowed, savedIdentifier, useIdentifier)
              == TokenDecision(Some("REGISTER_PAY_SUBSCRIBE"), None)
    ensures orderTotal <= 0.0 && Truthy(savedIdentifier) ==>
              TokenFields(true, orderTotal, aliasAllowed, savedIdentifier, useIdentifier)
              == TokenDecision(Some("SUBSCRIBE"), Some(savedIdentifier))
    ensures orderTotal <= 0.0 && !Truthy(savedIdentifier) ==>
              TokenFields(true, orderTotal, aliasAllowed, savedIdentifier, useIdentifier)
              == TokenDecision(Some("REGISTER_SUBSCRIBE"), None)
    ensures aliasAllowed && Truthy(savedIdentifier) && !UsesIdentifier(useIdentifier) ==>
              TokenFields(false, orderTotal, aliasAllowed, savedIdentifier, useIdentifier)
              == TokenDecision(Some("REGISTER_UPDATE_PAY"), Some(savedIdentifier))
    ensures aliasAllowed && Truthy(savedIdentifier) && UsesIdentifier(useIdentifier) ==>
              TokenFields(false, orderTotal, aliasAllowed, savedIdentifier, useIdentifier)
              == TokenDecision(None, Some(savedIdentifier))
    ensures aliasAllowed && !Truthy(savedIdentifier) ==>
              TokenFields(false, orderTotal, aliasAllowed, savedIdentifier, useIdentifier)
              == TokenDecision(Some("ASK_REGISTER_PAY"), None)
    ensures !aliasAllowed ==>
              TokenFields(false, orderTotal, aliasAllowed, savedIdentifier, useIdentifier)
              == TokenDecision(None, None)
  {
  }

  // ---------------------------------------------------------------------------
  // The request fields, group by group

  /** `setFromArray($misc_params)`: order, customer and shipping data. */
  function MiscParams(o: Order, h: Host, currencyNum: string): map<FieldName, Field> {
    map[
      Amount := Str(o.amountMinor),
      Contrib := Str(h.contrib),
      Currency := Str(currencyNum),
      OrderId := Str(o.id),
      OrderInfo := Str(o.orderKey),
      OrderInfo2 := Str("blog_id=" + h.blogId),
      CustId := Int(o.userId),
      CustEmail := Str(o.email),
      CustFirstName := Str(o.billing.firstName),
      CustLastName := Str(o.billing.lastName),
      CustAddress := Str(o.billing.address1 + " " + o.billing.address2),
      CustZip := Str(o.billing.postcode),
      CustCountry := Str(o.billing.country),
      CustPhone := Str(StripPhone(o.phone)),
      CustCity := Str(o.billing.city),
      CustState := Str(o.billing.state),
      ShipToFirstName := Str(o.shipping.firstName),
      ShipToLastName := Str(o.shipping.lastName),
      ShipToStreet := Str(o.shipping.address1),
      ShipToStreet2 := Str(o.shipping.address2),
      ShipToCity := Str(o.shipping.city),
      ShipToState := Str(o.shipping.state),
      ShipToCountry := Str(o.shipping.country),
      ShipToZip := Str(o.shipping.postcode),
      ShippingAmount := Str(o.shippingMinor),
      UrlReturn := Str(h.urlReturn)
    ]
  }

  /** 'language': the first two letters of the locale when the platform supports them, else the configured one. */
  function LanguageValue(locale: string, supported: set<string>, configured: string): Field {
    var short := if Truthy(locale) then locale[..if |locale| < 2 then |locale| else 2] else "";
    if Truthy(short) && short in supported then Str(short) else Str(configured)
  }

  /** A stored checkout choice as the request receives it: the string, or false when nothing was stored. */
  function TransientField(t: Option<string>): Field {
    match t
    case None => Flag(false)
    case Some(v) => Str(v)
  }

  function OptField(t: Option<string>): Field {
    match t
    case None => Null
    case Some(v) => Str(v)
  }
  // ---------------------------------------------------------------------------
  // The request, stage by stage. Each stage is the request map after a run
  // of `set` calls of `payzen_fill_request`, applied to the map before it.

  /** `r` holds field `k` exactly as `m` does. */
  predicate Keeps(m: map<FieldName, Field>, r: map<FieldName, Field>, k: FieldName) {
    (k in r <==> k in m) && (k in m ==> r[k] == m[k])
  }

  /** Order data, amounts, 3-D Secure and language. */
  function OrderDataStage(m: map<FieldName, Field>, g: GeneralConfig, o: Order, h: Host,
                          currencyNum: string): map<FieldName, Field>
  {
    (m + MiscParams(o, h, currencyNum))
      [TotalAmountVat := Str(o.taxMinor)]
      [ThreedsMpi := ThreedsMpiValue(o.total, g.threedsMinAmount)]
      [Language := LanguageValue(h.locale, h.supportedLanguages, g.language)]
  }

  /** 'available_languages' is sent only when the option is a list without the "all" entry ''. */
  function AvailableLanguagesStage(m: map<FieldName, Field>, langs: Option<seq<string>>): map<FieldName, Field> {
    if langs.Some? && !InArray("", langs.value) then m[AvailableLanguages := Str(Implode(";", langs.value))]
    else m
  }

  /** 'payment_cards': the card chosen on the merchant site, or the configured card list. */
  function PaymentCardsStage(m: map<FieldName, Field>, s: GatewaySettings, selectedCard: Option<string>): map<FieldName, Field> {
    if !s.hasCardDataModeField then m
    else if s.cardDataMode == "MERCHANT" then m[PaymentCards := TransientField(selectedCard)]
    else if s.paymentCards.Some? && !InArray("", s.paymentCards.value)
    then m[PaymentCards := Str(Implode(";", s.paymentCards.value))]
    else m
  }

  /** The redirection switch and messages. */
  function RedirectStage(m: map<FieldName, Field>, g: GeneralConfig, locale: string): map<FieldName, Field> {
    m
      [RedirectEnabled := Flag(g.redirectEnabled == "yes")]
      [RedirectSuccessMessage := OptField(Localized(g.redirectSuccessMessage, locale))]
      [RedirectErrorMessage := OptField(Localized(g.redirectErrorMessage, locale))]
  }

  /** Everything set before the configuration keys. */
  function OrderStage(m: map<FieldName, Field>, s: GatewaySettings, g: GeneralConfig, o: Order, h: Host,
                      currencyNum: string): map<FieldName, Field>
  {
    var withOrder := OrderDataStage(m, g, o, h, currencyNum);
    RedirectStage(PaymentCardsStage(AvailableLanguagesStage(withOrder, g.availableLanguages), s, h.selectedCard),
                  g, h.locale)
  }

  /** The fields listed in CONFIG_KEYS. */
  predicate IsConfigKey(k: FieldName) {
    || k.SiteId? || k.KeyTest? || k.KeyProd? || k.CtxMode? || k.PlatformUrl? || k.CaptureDelay?
    || k.ValidationMode? || k.RedirectSuccessTimeout? || k.RedirectErrorTimeout? || k.ReturnMode? || k.SignAlgo?
  }

  /** The general options under `keys`, copied one by one onto `m` in their order. */
  function ConfigStage(m: map<FieldName, Field>, g: GeneralConfig, keys: seq<FieldName>): map<FieldName, Field>
    decreases |keys|
  {
    if keys == [] then m else ConfigStage(m[keys[0] := Lookup(g.params, keys[0])], g, keys[1..])
  }

  /** The gateway's own capture delay and validation mode, where they override the general ones. */
  function OverrideStage(m: map<FieldName, Field>, s: GatewaySettings): map<FieldName, Field> {
    var withDelay := if IsNumeric(s.captureDelay) then m[CaptureDelay := Str(s.captureDelay)] else m;
    if s.validationMode != "-1" then withDelay[ValidationMode := Str(s.validationMode)] else withDelay
  }

  /** Whether the subscription branch runs: a handler, a subscription in the cart, and its details. */
  predicate InSubscriptionBranch(s: GatewaySettings, h: Host) {
    s.hasSubscriptionsHandler && h.cartContainsSubscription && h.subscription.Some?
  }

  /** The subscription amount, currency, rule, start date and, when there is one, the initial payment. */
  function SubscriptionStage(m: map<FieldName, Field>, info: SubInfo, currencyNum: string): map<FieldName, Field> {
    var withRule := m
      [SubAmount := Str(info.amountMinor)]
      [SubCurrency := Str(currencyNum)]
      [SubDesc := Str(Subscription.Describe(info.frequency, info.interval, info.endDate))]
      [SubEffectDate := Str(info.effectDate)];
    if info.initAmount != 0.0 && Truthy(info.initNumber)
    then withRule[SubInitAmount := Str(info.initAmountMinor)][SubInitAmountNumber := Str(info.initNumber)]
    else withRule
  }

  /** The token decision for this order, customer and cart. */
  function Decision(s: GatewaySettings, o: Order, h: Host): TokenDecision {
    TokenFields(InSubscriptionBranch(s, h), o.total, CanUseAlias(s, o.userId), h.savedIdentifier, h.useIdentifier)
  }

  /** The identifier and the page action of a token decision. */
  function TokenStage(m: map<FieldName, Field>, d: TokenDecision): map<FieldName, Field> {
    var withIdentifier := if d.identifier.Some? then m[Identifier := Str(d.identifier.value)] else m;
    if d.pageAction.Some? then withIdentifier[PageAction := Str(d.pageAction.value)] else withIdentifier
  }

  /** The configuration keys, then the gateway's overrides. */
  function ConfigOverrideStage(m: map<FieldName, Field>, s: GatewaySettings, g: GeneralConfig): map<FieldName, Field> {
    OverrideStage(ConfigStage(m, g, CONFIG_KEYS), s)
  }

  /** Everything before the subscription and token fields. */
  function GeneralStage(base: map<FieldName, Field>, s: GatewaySettings, g: GeneralConfig, o: Order, h: Host,
                        currencyNum: string): map<FieldName, Field>
  {
    ConfigOverrideStage(OrderStage(base, s, g, o, h, currencyNum), s, g)
  }

  /** The subscription fields when the subscription branch runs, then the token decision. */
  function LateStage(m: map<FieldName, Field>, s: GatewaySettings, o: Order, h: Host,
                     currencyNum: string): map<FieldName, Field>
  {
    var subscribed := if InSubscriptionBranch(s, h) then SubscriptionStage(m, h.subscription.value, currencyNum)
                      else m;
    TokenStage(subscribed, Decision(s, o, h))
  }

  /** The request once `payzen_fill_request` has run on a request holding `base`. */
  function Filled(base: map<FieldName, Field>, s: GatewaySettings, g: GeneralConfig, o: Order, h: Host,
                  currencyNum: string): map<FieldName, Field>
  {
    LateStage(GeneralStage(base, s, g, o, h, currencyNum), s, o, h, currencyNum)
  }

  // ---------------------------------------------------------------------------
  // What each stage writes and what it leaves alone

  lemma MiscParamsPhone(m: map<FieldName, Field>, o: Order, h: Host, currencyNum: string)
    ensures var r := m + MiscParams(o, h, currencyNum);
            CustPhone in r && r[CustPhone] == Str(StripPhone(o.phone))
  {
  }

  /** The order data sets neither the page action nor the identifier. */
  lemma MiscParamsKeeps(m: map<FieldName, Field>, o: Order, h: Host, currencyNum: string, k: FieldName)
    requires k == PageAction || k == Identifier
    ensures Keeps(m, m + MiscParams(o, h, currencyNum), k)
  {
    assert k !in MiscParams(o, h, currencyNum).Keys;
  }

  lemma OrderDataFacts(m: map<FieldName, Field>, g: GeneralConfig, o: Order, h: Host, currencyNum: string)
    ensures var r := OrderDataStage(m, g, o, h, currencyNum);
            && CustPhone in r && r[CustPhone] == Str(StripPhone(o.phone))
            && ThreedsMpi in r && r[ThreedsMpi] == ThreedsMpiValue(o.total, g.threedsMinAmount)
            && Keeps(m, r, PageAction) && Keeps(m, r, Identifier)
  {
    var merged := m + MiscParams(o, h, currencyNum);
    assert CustPhone in merged && merged[CustPhone] == Str(StripPhone(o.phone)) by {
      MiscParamsPhone(m, o, h, currencyNum);
    }
    assert Keeps(m, merged, PageAction) && Keeps(m, merged, Identifier) by {
      MiscParamsKeeps(m, o, h, currencyNum, PageAction);
      MiscParamsKeeps(m, o, h, currencyNum, Identifier);
    }
  }

  lemma CardsStageKeeps(m: map<FieldName, Field>, s: GatewaySettings, g: GeneralConfig, h: Host, k: FieldName)
    requires k != AvailableLanguages && k != PaymentCards
    ensures Keeps(m, PaymentCardsStage(AvailableLanguagesStage(m, g.availableLanguages), s, h.selectedCard), k)
  {
  }

  lemma RedirectStageKeeps(m: map<FieldName, Field>, g: GeneralConfig, locale: string, k: FieldName)
    requires k != RedirectEnabled && k != RedirectSuccessMessage && k != RedirectErrorMessage
    ensures Keeps(m, RedirectStage(m, g, locale), k)
  {
  }

  lemma OrderStageFacts(m: map<FieldName, Field>, s: GatewaySettings, g: GeneralConfig, o: Order, h: Host,
                        currencyNum: string)
    ensures var r := OrderStage(m, s, g, o, h, currencyNum);
            && CustPhone in r && r[CustPhone] == Str(StripPhone(o.phone))
            && ThreedsMpi in r && r[ThreedsMpi] == ThreedsMpiValue(o.total, g.threedsMinAmount)
            && Keeps(m, r, PageAction) && Keeps(m, r, Identifier)
  {
    var withOrder := OrderDataStage(m, g, o, h, currencyNum);
    OrderDataFacts(m, g, o, h, currencyNum);
    var withCards := PaymentCardsStage(AvailableLanguagesStage(withOrder, g.availableLanguages), s, h.selectedCard);
    CardsStageKeeps(withOrder, s, g, h, CustPhone);
    CardsStageKeeps(withOrder, s, g, h, ThreedsMpi);
    CardsStageKeeps(withOrder, s, g, h, PageAction);
    CardsStageKeeps(withOrder, s, g, h, Identifier);
    RedirectStageKeeps(withCards, g, h.locale, CustPhone);
    RedirectStageKeeps(withCards, g, h.locale, ThreedsMpi);
    RedirectStageKeeps(withCards, g, h.locale, PageAction);
    RedirectStageKeeps(withCards, g, h.locale, Identifier);
  }

  lemma ConfigKeysListed()
    ensures forall i :: 0 <= i < |CONFIG_KEYS| ==> IsConfigKey(CONFIG_KEYS[i])
    ensures CONFIG_KEYS[5] == CaptureDelay && CONFIG_KEYS[6] == ValidationMode
  {
  }

  /** Copying configuration keys leaves every other field alone. */
  lemma {:induction false} ConfigStageKeeps(m: map<FieldName, Field>, g: GeneralConfig, keys: seq<FieldName>,
                                            k: FieldName)
    requires forall i :: 0 <= i < |keys| ==> keys[i] != k
    ensures Keeps(m, ConfigStage(m, g, keys), k)
    decreases |keys|
  {
    if keys != [] {
      assert keys[0] != k;
      var next := m[keys[0] := Lookup(g.params, keys[0])];
      assert forall i :: 0 <= i < |keys[1..]| ==> keys[1..][i] == keys[i + 1];
      ConfigStageKeeps(next, g, keys[1..], k);
    }
  }

  /** Every copied key holds the configured option afterwards. */
  lemma {:induction false} ConfigStageWrites(m: map<FieldName, Field>, g: GeneralConfig, keys: seq<FieldName>,
                                             k: FieldName)
    requires k in keys
    ensures k in ConfigStage(m, g, keys) && ConfigStage(m, g, keys)[k] == Lookup(g.params, k)
    decreases |keys|
  {
    var next := m[keys[0] := Lookup(g.params, keys[0])];
    if k in keys[1..] {
      ConfigStageWrites(next, g, keys[1..], k);
    } else {
      assert keys[0] == k by {
        assert keys == [keys[0]] + keys[1..];
      }
      assert forall i :: 0 <= i < |keys[1..]| ==> keys[1..][i] != k;
      ConfigStageKeeps(next, g, keys[1..], k);
    }
  }

  lemma OverrideStageFacts(m: map<FieldName, Field>, s: GatewaySettings, k: FieldName)
    requires CaptureDelay in m && ValidationMode in m
    ensures var r := OverrideStage(m, s);
            && CaptureDelay in r && r[CaptureDelay] == CaptureDelayValue(m[CaptureDelay], s.captureDelay)
            && ValidationMode in r && r[ValidationMode] == ValidationModeValue(m[ValidationMode], s.validationMode)
            && (k != CaptureDelay && k != ValidationMode ==> Keeps(m, r, k))
  {
  }

  /** The configuration and override stages keep every field outside the configuration keys. */
  lemma ConfigOverrideKeeps(m: map<FieldName, Field>, s: GatewaySettings, g: GeneralConfig, k: FieldName)
    requires !IsConfigKey(k)
    ensures Keeps(m, ConfigOverrideStage(m, s, g), k)
  {
    var configured := ConfigStage(m, g, CONFIG_KEYS);
    assert Keeps(m, configured, k) by {
      ConfigKeysListed();
      ConfigStageKeeps(m, g, CONFIG_KEYS, k);
    }
    assert CaptureDelay in configured && ValidationMode in configured by {
      ConfigKeysListed();
      ConfigStageWrites(m, g, CONFIG_KEYS, CaptureDelay);
      ConfigStageWrites(m, g, CONFIG_KEYS, ValidationMode);
    }
    OverrideStageFacts(configured, s, k);
  }

  /** The capture delay and validation mode: the general option unless the gateway overrides it. */
  lemma ConfigOverrideWrites(m: map<FieldName, Field>, s: GatewaySettings, g: GeneralConfig)
    ensures var r := ConfigOverrideStage(m, s, g);
            && CaptureDelay in r
            && r[CaptureDelay] == CaptureDelayValue(Lookup(g.params, CaptureDelay), s.captureDelay)
            && ValidationMode in r
            && r[ValidationMode] == ValidationModeValue(Lookup(g.params, ValidationMode), s.validationMode)
  {
    var configured := ConfigStage(m, g, CONFIG_KEYS);
    ConfigKeysListed();
    ConfigStageWrites(m, g, CONFIG_KEYS, CaptureDelay);
    ConfigStageWrites(m, g, CONFIG_KEYS, ValidationMode);
    OverrideStageFacts(configured, s, CustPhone);
  }

  /** The order-stage fields the configuration and override stages leave alone. */
  lemma GeneralStageKeeps(base: map<FieldName, Field>, s: GatewaySettings, g: GeneralConfig, o: Order,
                          h: Host, currencyNum: string, k: FieldName)
    requires !IsConfigKey(k)
    ensures Keeps(OrderStage(base, s, g, o, h, currencyNum), GeneralStage(base, s, g, o, h, currencyNum), k)
  {
    ConfigOverrideKeeps(OrderStage(base, s, g, o, h, currencyNum), s, g, k);
  }

  lemma GeneralStageOverrides(base: map<FieldName, Field>, s: GatewaySettings, g: GeneralConfig, o: Order,
                              h: Host, currencyNum: string)
    ensures var r := GeneralStage(base, s, g, o, h, currencyNum);
            && CaptureDelay in r
            && r[CaptureDelay] == CaptureDelayValue(Lookup(g.params, CaptureDelay), s.captureDelay)
            && ValidationMode in r
            && r[ValidationMode] == ValidationModeValue(Lookup(g.params, ValidationMode), s.validationMode)
  {
    ConfigOverrideWrites(OrderStage(base, s, g, o, h, currencyNum), s, g);
  }

  lemma SubscriptionStageKeeps(m: map<FieldName, Field>, info: SubInfo, currencyNum: string, k: FieldName)
    requires !(k.SubAmount? || k.SubCurrency? || k.SubDesc? || k.SubEffectDate?)
    requires !(k.SubInitAmount? || k.SubInitAmountNumber?)
    ensures Keeps(m, SubscriptionStage(m, info, currencyNum), k)
  {
  }

  lemma TokenStageKeeps(m: map<FieldName, Field>, d: TokenDecision, k: FieldName)
    requires k != PageAction && k != Identifier
    ensures Keeps(m, TokenStage(m, d), k)
  {
  }

  /** The subscription and token stage writes only its own fields. */
  lemma LateStageKeeps(m: map<FieldName, Field>, s: GatewaySettings, o: Order, h: Host, currencyNum: string,
                       k: FieldName)
    requires !(k.SubAmount? || k.SubCurrency? || k.SubDesc? || k.SubEffectDate?)
    requires !(k.SubInitAmount? || k.SubInitAmountNumber? || k.PageAction? || k.Identifier?)
    ensures Keeps(m, LateStage(m, s, o, h, currencyNum), k)
  {
    var subscribed := if InSubscriptionBranch(s, h) then SubscriptionStage(m, h.subscription.value, currencyNum)
                      else m;
    if InSubscriptionBranch(s, h) {
      SubscriptionStageKeeps(m, h.subscription.value, currencyNum, k);
    }
    TokenStageKeeps(subscribed, Decision(s, o, h), k);
  }

  /** The subscription rule and the token decision as the last stage writes them. */
  lemma LateStageFacts(m: map<FieldName, Field>, s: GatewaySettings, o: Order, h: Host, currencyNum: string)
    ensures var r := LateStage(m, s, o, h, currencyNum);
            var d := Decision(s, o, h);
            && (InSubscriptionBranch(s, h) ==>
                  SubDesc in r && r[SubDesc] == Str(Subscription.Describe(h.subscription.value.frequency,
                                                                          h.subscription.value.interval,
                                                                          h.subscription.value.endDate)))
            && (d.pageAction.Some? ==> PageAction in r && r[PageAction] == Str(d.pageAction.value))
            && (d.pageAction.None? ==> Keeps(m, r, PageAction))
            && (d.identifier.Some? ==> Identifier in r && r[Identifier] == Str(d.identifier.value))
            && (d.identifier.None? ==> Keeps(m, r, Identifier))
  {
  }

  /** 'cust_phone' holds the billing phone without separators. */
  lemma FilledPhone(base: map<FieldName, Field>, s: GatewaySettings, g: GeneralConfig, o: Order, h: Host,
                    currencyNum: string)
    ensures var f := Filled(base, s, g, o, h, currencyNum);
            CustPhone in f && f[CustPhone] == Str(StripPhone(o.phone))
  {
    OrderStageFacts(base, s, g, o, h, currencyNum);
    GeneralStageKeeps(base, s, g, o, h, currencyNum, CustPhone);
    LateStageKeeps(GeneralStage(base, s, g, o, h, currencyNum), s, o, h, currencyNum, CustPhone);
  }

  /** 'threeds_mpi' holds the 3-D Secure decision for the order total. */
  lemma FilledThreeds(base: map<FieldName, Field>, s: GatewaySettings, g: GeneralConfig, o: Order, h: Host,
                      currencyNum: string)
    ensures var f := Filled(base, s, g, o, h, currencyNum);
            ThreedsMpi in f && f[ThreedsMpi] == ThreedsMpiValue(o.total, g.threedsMinAmount)
  {
    OrderStageFacts(base, s, g, o, h, currencyNum);
    GeneralStageKeeps(base, s, g, o, h, currencyNum, ThreedsMpi);
    LateStageKeeps(GeneralStage(base, s, g, o, h, currencyNum), s, o, h, currencyNum, ThreedsMpi);
  }

  /** 'capture_delay' and 'validation_mode': the general options unless the gateway overrides them. */
  lemma FilledOverrides(base: map<FieldName, Field>, s: GatewaySettings, g: GeneralConfig, o: Order, h: Host,
                        currencyNum: string)
    ensures var f := Filled(base, s, g, o, h, currencyNum);
            && CaptureDelay in f
            && f[CaptureDelay] == CaptureDelayValue(Lookup(g.params, CaptureDelay), s.captureDelay)
            && ValidationMode in f
            && f[ValidationMode] == ValidationModeValue(Lookup(g.params, ValidationMode), s.validationMode)
  {
    var general := GeneralStage(base, s, g, o, h, currencyNum);
    GeneralStageOverrides(base, s, g, o, h, currencyNum);
    LateStageKeeps(general, s, o, h, currencyNum, CaptureDelay);
    LateStageKeeps(general, s, o, h, currencyNum, ValidationMode);
  }

  /** In the subscription branch 'sub_desc' holds the recurrence rule of the subscription. */
  lemma FilledSubscriptionRule(base: map<FieldName, Field>, s: GatewaySettings, g: GeneralConfig, o: Order,
                               h: Host, currencyNum: string)
    requires InSubscriptionBranch(s, h)
    ensures var f := Filled(base, s, g, o, h, currencyNum);
            SubDesc in f && f[SubDesc] == Str(Subscription.Describe(h.subscription.value.frequency,
                                                                    h.subscription.value.interval,
                                                                    h.subscription.value.endDate))
  {
    LateStageFacts(GeneralStage(base, s, g, o, h, currencyNum), s, o, h, currencyNum);
  }

  /**
   * The page action in the filled request follows the token decision; when
   * the decision sets none, what the request held before is left alone.
   */
  lemma FilledPageAction(base: map<FieldName, Field>, s: GatewaySettings, g: GeneralConfig, o: Order, h: Host,
                         currencyNum: string)
    ensures var f := Filled(base, s, g, o, h, currencyNum);
            var d := Decision(s, o, h);
            && (d.pageAction.Some? ==> PageAction in f && f[PageAction] == Str(d.pageAction.value))
            && (d.pageAction.None? ==> Keeps(base, f, PageAction))
  {
    OrderStageFacts(base, s, g, o, h, currencyNum);
    GeneralStageKeeps(base, s, g, o, h, currencyNum, PageAction);
    LateStageFacts(GeneralStage(base, s, g, o, h, currencyNum), s, o, h, currencyNum);
  }

  /** The identifier in the filled request follows the token decision in the same way. */
  lemma FilledIdentifier(base: map<FieldName, Field>, s: GatewaySettings, g: GeneralConfig, o: Order, h: Host,
                         currencyNum: string)
    ensures var f := Filled(base, s, g, o, h, currencyNum);
            var d := Decision(s, o, h);
            && (d.identifier.Some? ==> Identifier in f && f[Identifier] == Str(d.identifier.value))
            && (d.identifier.None? ==> Keeps(base, f, Identifier))
  {
    OrderStageFacts(base, s, g, o, h, currencyNum);
    GeneralStageKeeps(base, s, g, o, h, currencyNum, Identifier);
    LateStageFacts(GeneralStage(base, s, g, o, h, currencyNum), s, o, h, currencyNum);
  }

  /**
   * A free order that `payzen_order_needs_payment` lets through to this
   * gateway is a subscription registration: the token decision asks the
   * platform to subscribe (with the saved card) or to register and
   * subscribe, never to take a payment.
   */
  lemma FreeOrderSubscribes(s: GatewaySettings, isActive: bool, o: Order, h: Host)
    requires o.total == 0.0 && h.subscription.Some?
    requires OrderNeedsPayment(s, isActive, o.total, s.id, h.cartContainsSubscription)
    ensures Decision(s, o, h).pageAction == Some("SUBSCRIBE")
            || Decision(s, o, h).pageAction == Some("REGISTER_SUBSCRIBE")
  {
  }

  /** The same free order's filled request carries that page action. */
  lemma FreeOrderFilledSubscribes(base: map<FieldName, Field>, s: GatewaySettings, g: GeneralConfig, isActive: bool,
                                  o: Order, h: Host, currencyNum: string)
    requires o.total == 0.0 && h.subscription.Some?
    requires OrderNeedsPayment(s, isActive, o.total, s.id, h.cartContainsSubscription)
    ensures var f := Filled(base, s, g, o, h, currencyNum);
            PageAction in f && (f[PageAction] == Str("SUBSCRIBE") || f[PageAction] == Str("REGISTER_SUBSCRIBE"))
  {
    FreeOrderSubscribes(s, isActive, o, h);
    FilledPageAction(base, s, g, o, h, currencyNum);
  }

  // ---------------------------------------------------------------------------
  // Filling the request

  /** Order data, amounts, 3-D Secure and language. */
  method SetOrderData(req: Request, g: GeneralConfig, o: Order, h: Host, currencyNum: string)
    modifies req
    ensures req.fields == OrderDataStage(old(req.fields), g, o, h, currencyNum)
  {
    req.SetFromArray(MiscParams(o, h, currencyNum));
    req.Set(TotalAmountVat, Str(o.taxMinor));

    var threedsMpi := Null;
    if g.threedsMinAmount != "" && o.total < Num(g.threedsMinAmount) {
      threedsMpi := Str("2");
    }
    req.Set(ThreedsMpi, threedsMpi);

    var locale := if Truthy(h.locale) then h.locale[..if |h.locale| < 2 then |h.locale| else 2] else "";
    if Truthy(locale) && locale in h.supportedLanguages {
      req.Set(Language, Str(locale));
    } else {
      req.Set(Language, Str(g.language));
    }
  }

  /** Everything `payzen_fill_request` sets before the configuration keys. */
  method SetOrderFields(req: Request, s: GatewaySettings, g: GeneralConfig, o: Order, h: Host, currencyNum: string)
    modifies req
    ensures req.fields == OrderStage(old(req.fields), s, g, o, h, currencyNum)
  {
    SetOrderData(req, g, o, h, currencyNum);

    if g.availableLanguages.Some? && !InArray("", g.availableLanguages.value) {
      req.Set(AvailableLanguages, Str(Implode(";", g.availableLanguages.value)));
    }

    if s.hasCardDataModeField {
      if s.cardDataMode == "MERCHANT" {
        req.Set(PaymentCards, TransientField(h.selectedCard));
      } else if s.paymentCards.Some? && !InArray("", s.paymentCards.value) {
        req.Set(PaymentCards, Str(Implode(";", s.paymentCards.value)));
      }
    }

    req.Set(RedirectEnabled, Flag(g.redirectEnabled == "yes"));
    req.Set(RedirectSuccessMessage, OptField(Localized(g.redirectSuccessMessage, h.locale)));
    req.Set(RedirectErrorMessage, OptField(Localized(g.redirectErrorMessage, h.locale)));
  }

  /** Copying the key at position `i` and then the rest is copying from position `i`. */
  lemma ConfigStageStep(m: map<FieldName, Field>, g: GeneralConfig, keys: seq<FieldName>, i: int)
    requires 0 <= i < |keys|
    ensures ConfigStage(m, g, keys[i..]) == ConfigStage(m[keys[i] := Lookup(g.params, keys[i])], g, keys[i + 1..])
  {
    assert keys[i..][0] == keys[i] && keys[i..][1..] == keys[i + 1..];
  }

  /** The loop copying the general configuration keys into the request. */
  method SetConfigFields(req: Request, g: GeneralConfig)
    modifies req
    ensures req.fields == ConfigStage(old(req.fields), g, CONFIG_KEYS)
  {
    var keys := CONFIG_KEYS;
    var i := 0;
    assert keys[0..] == keys;
    while i < |keys|
      invariant 0 <= i <= |keys|
      invariant ConfigStage(req.fields, g, keys[i..]) == ConfigStage(old(req.fields), g, keys)
    {
      var key := keys[i];
      ConfigStageStep(req.fields, g, keys, i);
      req.Set(key, Lookup(g.params, key));
      i := i + 1;
    }
    assert keys[i..] == [];
  }

  /** The subscription branch, or else the payment-by-token branch. */
  method SetTokenFields(req: Request, s: GatewaySettings, o: Order, h: Host, currencyNum: string)
    modifies req
    ensures req.fields == LateStage(old(req.fields), s, o, h, currencyNum)
  {
    if s.hasSubscriptionsHandler && h.cartContainsSubscription && h.subscription.Some? {
      var info := h.subscription.value;
      req.Set(SubAmount, Str(info.amountMinor));
      req.Set(SubCurrency, Str(currencyNum));
      req.Set(SubDesc, Str(Subscription.Describe(info.frequency, info.interval, info.endDate)));
      req.Set(SubEffectDate, Str(info.effectDate));
      if info.initAmount != 0.0 && Truthy(info.initNumber) {
        req.Set(SubInitAmount, Str(info.initAmountMinor));
        req.Set(SubInitAmountNumber, Str(info.initNumber));
      }
      if o.total > 0.0 {
        req.Set(PageAction, Str("REGISTER_PAY_SUBSCRIBE"));
      } else if Truthy(h.savedIdentifier) {
        req.Set(Identifier, Str(h.savedIdentifier));
        req.Set(PageAction, Str("SUBSCRIBE"));
      } else {
        req.Set(PageAction, Str("REGISTER_SUBSCRIBE"));
      }
    } else if CanUseAlias(s, o.userId) {
      if Truthy(h.savedIdentifier) {
        req.Set(Identifier, Str(h.savedIdentifier));
        if !UsesIdentifier(h.useIdentifier) {
          req.Set(PageAction, Str("REGISTER_UPDATE_PAY"));
        }
      } else {
        req.Set(PageAction, Str("ASK_REGISTER_PAY"));
      }
    }
  }

  /**
   * `payzen_fill_request`. It stops (the source ends the page with an error)
   * when the payment library does not know the store currency, leaving the
   * request untouched; otherwise the request holds `Filled`.
   */
  method FillRequest(req: Request, s: GatewaySettings, g: GeneralConfig, o: Order, h: Host)
    returns (ok: bool)
    modifies req
    ensures ok <==> h.currencyNum.Some?
    ensures !ok ==> req.fields == old(req.fields)
    ensures ok ==> req.fields == Filled(old(req.fields), s, g, o, h, h.currencyNum.value)
  {
    if h.currencyNum.None? {
      return false;
    }
    ok := true;
    var currencyNum := h.currencyNum.value;
    SetOrderFields(req, s, g, o, h, currencyNum);
    SetConfigFields(req, g);
    if IsNumeric(s.captureDelay) {
      req.Set(CaptureDelay, Str(s.captureDelay));
    }
    if s.validationMode != "-1" {
      req.Set(ValidationMode, Str(s.validationMode));
    }
    SetTokenFields(req, s, o, h, currencyNum);
  }
}
