# PayZen for WooCommerce: checkout decisions of the payment gateways

This project models, in Dafny, the decision logic of two PayZen payment
gateways for WooCommerce:

- the one-time payment gateway `WC_Gateway_PayzenStd`;
- the gateway that groups the store's "other payment means" into one,
  `WC_Gateway_PayzenRegroupedOther`.

The model covers when each gateway is offered at checkout and how the amount
and payment-means settings are cleaned when the merchant saves them. It also
covers how the outbound payment request is filled: the order data, the
3-D Secure switch, the capture delay and validation mode overrides, the
subscription recurrence rule and the payment-by-token page action.

The host (WordPress options, the WooCommerce cart, customer and order, user
meta and transients) appears only as plain input values. The payment library
appears only as the field map of the request.

Modules:

- `Php`: the PHP value semantics the decisions rest on.
  - Truthiness of strings.
  - `is_numeric` and the numeric value of a numeric string.
  - Loose `==`, `in_array`, `implode` and `str_replace` of one character.
- `OrderedArrays`: PHP ordered arrays as sequences of key/value entries.
  - Filtering them.
  - Keeping the first occurrence of each value under an equivalence.
  - Rewriting their values.
- `PayzenRequest`: the request as a class with a field map, which `Set` and
  `SetFromArray` update in place.
- `StdGateway`: the settings of the one-time gateway, the localized title,
  the country narrowing of the settings screen and the amount validators.
  It also holds the availability checks (currency, billing country, amount
  window, subscriptions), `can_use_alias` and `payzen_order_needs_payment`.
- `Subscription`: the recurrence rule sent as `sub_desc`, in the syntax of
  section 3.3.10 of RFC 5545. A parser reads it back, so the rule can be
  checked to determine its frequency, interval and end date.
- `StdRequest`: `payzen_fill_request` of the one-time gateway.
  - The request after each group of `set` calls is a function of the request
    before it.
  - The methods that call `Set` are proved to produce it.
  - Lemmas state, field by field, what the filled request holds.
- `Regrouped`: the grouped gateway. It covers:
  - the validation of the payment-means table;
  - the options available for a cart;
  - `get_mean`;
  - the regroup rule;
  - the per-option overrides of the request.

## Model

| member | source | states |
|---|---|---|
| Php.InArrayAt | woo-payzen-payment/class-wc-gateway-payzenstd.php:433-437 | `in_array($x, $xs)` is true exactly when some element of `$xs` is `==` to `$x` |
| Php.InArrayAppend | woo-payzen-payment/class-wc-gateway-payzenregroupedother.php:327-331 | after `$used_cards[] = $m`, a value is in the list iff it was before or it is `==` to `$m` |
| Php.LooseEqSymmetric | woo-payzen-payment/class-wc-gateway-payzenregroupedother.php:327 | loose string equality does not depend on the order of its operands |
| Php.LooseEqTransitive | woo-payzen-payment/class-wc-gateway-payzenregroupedother.php:327 | the model's loose equality (numeric strings compared as exact decimals) is transitive, so de-duplication by `in_array` is by an equivalence; PHP's float comparison of long numeric strings is not, which does not arise for card-type codes |
| Php.ReplaceChar | woo-payzen-payment/class-wc-gateway-payzenstd.php:319 | `str_replace(',', '.', $v)` keeps the length and changes exactly the occurrences of the replaced character |
| OrderedArrays.Filter | woo-payzen-payment/class-wc-gateway-payzenregroupedother.php:403-411 | copying the entries that pass a test never yields more entries than the array has |
| OrderedArrays.FilterStep | woo-payzen-payment/class-wc-gateway-payzenregroupedother.php:403-408 | one more turn of the `foreach` appends the current entry exactly when it passes the test |
| OrderedArrays.FilterMembers | woo-payzen-payment/class-wc-gateway-payzenregroupedother.php:403-411 | an entry (key and value) is in the copy iff it is in the array and passes the test |
| OrderedArrays.FilterSubset | woo-payzen-payment/class-wc-gateway-payzenregroupedother.php:403-411 | the copy only holds entries of the array, keys preserved |
| OrderedArrays.SeenBeforeAt | woo-payzen-payment/class-wc-gateway-payzenregroupedother.php:321-331 | "an earlier accepted value is equivalent" holds iff there is such a position before `i` |
| OrderedArrays.FirstOccurrences | woo-payzen-payment/class-wc-gateway-payzenregroupedother.php:321-331 | keeping first occurrences of the first `n` entries yields at most `n` entries |
| OrderedArrays.FirstOccurrencesOrigin | woo-payzen-payment/class-wc-gateway-payzenregroupedother.php:321-331 | every kept entry is an entry of the array at a position where its value is accepted and no earlier accepted value is equivalent |
| OrderedArrays.FirstOccurrencesComplete | woo-payzen-payment/class-wc-gateway-payzenregroupedother.php:321-331 | every such first accepted occurrence is kept |
| OrderedArrays.FirstOccurrencesDistinct | woo-payzen-payment/class-wc-gateway-payzenregroupedother.php:327-331 | under a symmetric equivalence, no two kept entries have equivalent values |
| OrderedArrays.DroppedRepeats | woo-payzen-payment/class-wc-gateway-payzenregroupedother.php:327-329 | a dropped repeat adds no new equivalence class to what was seen |
| OrderedArrays.FirstOccurrencesSeen | woo-payzen-payment/class-wc-gateway-payzenregroupedother.php:327-331 | a value is equivalent to a kept entry iff it is equivalent to some earlier accepted entry, kept or not (the accumulator tracks every accepted value) |
| OrderedArrays.LaterDuplicateDropped | woo-payzen-payment/class-wc-gateway-payzenregroupedother.php:327-329 | of two accepted entries with equivalent values, the later one is not kept |
| OrderedArrays.MapRows | woo-payzen-payment/class-wc-gateway-payzenregroupedother.php:332-351 | rewriting every value keeps the number of entries |
| OrderedArrays.MapRowsAt | woo-payzen-payment/class-wc-gateway-payzenregroupedother.php:332-351 | each rewritten entry keeps its key and holds the rewritten value of the entry at the same position |
| PayzenRequest.Request.Set | woo-payzen-payment/class-wc-gateway-payzenstd.php:852 | `set` gives the named field the new value and leaves every other field as it was |
| PayzenRequest.Request.SetFromArray | woo-payzen-payment/class-wc-gateway-payzenstd.php:849 | `setFromArray` overwrites exactly the given fields with the given values |
| StdGateway.LocalizedFallback | woo-payzen-payment/class-wc-gateway-payzenstd.php:103-112 | a translated title is shown iff the locale has a non-empty translation or an en_US one exists; it is always one of those two, and en_US gets its own text |
| StdGateway.TitleRule | woo-payzen-payment/class-wc-gateway-payzenstd.php:103-112 | `get_title` shows a plain title as it is; a translated one is the locale's non-empty text, else the en_US text, and null only when neither exists |
| StdGateway.FilterAllowedCountries | woo-payzen-payment/class-wc-gateway-payzenstd.php:131-147 | an empty gateway list returns the countries unchanged; otherwise the keys are those in both the list and the input, each with its input value |
| StdGateway.ValidateAmountOutcomes | woo-payzen-payment/class-wc-gateway-payzenstd.php:311-325 | empty input gives ''; a numeric non-negative value with ',' read as '.' is returned normalised (no comma left); anything else restores the stored option |
| StdGateway.ValidateAmountPreservesStored | woo-payzen-payment/class-wc-gateway-payzenstd.php:327-341 | the validators keep the stored amount empty or a non-negative number without a comma |
| StdGateway.ValidateAmountIdempotent | woo-payzen-payment/class-wc-gateway-payzenstd.php:311-341 | validating the validated value again gives the same stored amount |
| StdGateway.UnavailableOutsideWindow | woo-payzen-payment/class-wc-gateway-payzenstd.php:395-405 | a cart total above a set maximum or below a set minimum, or a cart with several subscriptions, makes the gateway unavailable |
| StdGateway.AvailableTotalsConvex | woo-payzen-payment/class-wc-gateway-payzenstd.php:395-399 | if two totals are accepted, every total between them is accepted too |
| StdGateway.CountryRule | woo-payzen-payment/class-wc-gateway-payzenstd.php:422-439 | no customer gives false; in all-countries mode it is true iff the gateway list is empty or holds the billing country; otherwise iff `specific_countries` holds it |
| StdGateway.OfferedCountryAccepted | woo-payzen-payment/class-wc-gateway-payzenstd.php:131-147 | in all-countries mode every country the settings screen offers passes the billing-country check of lines 433-435 |
| StdGateway.AliasRule | woo-payzen-payment/class-wc-gateway-payzenstd.php:586-597 | token payment needs a non-empty customer id, gateway id `payzenstd` and `payment_by_token == '1'`; the grouped gateway never allows it |
| StdGateway.OrderNeedsPaymentScope | woo-payzen-payment/class-wc-gateway-payzenstd.php:989-998 | orders paid with another gateway and non-free orders keep the host's verdict; a free order paid with the gateway never needs payment when its settings have no subscriptions handler or the cart holds no subscription |
| StdRequest.FreeOrderSubscribes | woo-payzen-payment/class-wc-gateway-payzenstd.php:989-998 | a free order that `payzen_order_needs_payment` lets through, when the handler returns subscription info for it, is sent with page action SUBSCRIBE or REGISTER_SUBSCRIBE (lines 944-954), never as a payment |
| StdRequest.FreeOrderFilledSubscribes | woo-payzen-payment/class-wc-gateway-payzenstd.php:924-954 | the filled request of such a free order carries `page_action` SUBSCRIBE or REGISTER_SUBSCRIBE |
| Subscription.DescribeRoundTrip | woo-payzen-payment/class-wc-gateway-payzenstd.php:930-933 | parsing the built RRULE gives back frequency and interval, and the end date exactly when it is set and non-empty |
| Subscription.DescribeInjective | woo-payzen-payment/class-wc-gateway-payzenstd.php:930-933 | two subscriptions with the same `sub_desc` agree on frequency, interval and (set) end date |
| Subscription.ParseUntilRoundTrip | woo-payzen-payment/class-wc-gateway-payzenstd.php:931-933 | the `;UNTIL=` part is present and read back iff the end date is set and truthy |
| StdRequest.StripPhone | woo-payzen-payment/class-wc-gateway-payzenstd.php:830 | `cust_phone` contains none of `(`, `-`, space, `)` and is no longer than the billing phone |
| StdRequest.StripPhoneChar | woo-payzen-payment/class-wc-gateway-payzenstd.php:830 | each separator `(`, `-`, space, `)` is deleted, not replaced, and every other character is kept; with StripPhoneConcat this fixes the stripped phone completely |
| StdRequest.StripPhoneConcat | woo-payzen-payment/class-wc-gateway-payzenstd.php:830 | the stripped phone keeps the other characters in order: stripping distributes over concatenation |
| StdRequest.StripPhoneFixedPoints | woo-payzen-payment/class-wc-gateway-payzenstd.php:830 | a phone number is sent unchanged iff it has no separator |
| StdRequest.StripPhoneIdempotent | woo-payzen-payment/class-wc-gateway-payzenstd.php:830 | stripping twice is stripping once |
| StdRequest.ThreedsRule | woo-payzen-payment/class-wc-gateway-payzenstd.php:855-860 | `threeds_mpi` is '2' iff `3ds_min_amount` is set and the total is below it, null otherwise; a smaller total never gets more 3-D Secure |
| StdRequest.TokenDecisionFacts | woo-payzen-payment/class-wc-gateway-payzenstd.php:924-969 | an identifier sent is always the customer's saved one; paying with the token without a page action needs token payment and the customer's choice; nothing is set iff neither a subscription nor token payment applies |
| StdRequest.PageActionTable | woo-payzen-payment/class-wc-gateway-payzenstd.php:924-969 | the page action and identifier for each row of the subscription / token decision table |
| StdRequest.OrderDataFacts | woo-payzen-payment/class-wc-gateway-payzenstd.php:814-860 | after the order data, `cust_phone` is the stripped phone and `threeds_mpi` the 3-D Secure decision, and page action and identifier are untouched |
| StdRequest.OrderStageFacts | woo-payzen-payment/class-wc-gateway-payzenstd.php:814-903 | the same facts hold after the languages, cards and redirection fields |
| StdRequest.ConfigStageKeeps | woo-payzen-payment/class-wc-gateway-payzenstd.php:906-913 | the configuration loop leaves every field not among its keys as it was |
| StdRequest.ConfigStageWrites | woo-payzen-payment/class-wc-gateway-payzenstd.php:906-913 | after the configuration loop each listed key holds the general option (null when unset) |
| StdRequest.ConfigOverrideKeeps | woo-payzen-payment/class-wc-gateway-payzenstd.php:906-922 | the configuration loop and the overrides leave every non-configuration field alone |
| StdRequest.ConfigOverrideWrites | woo-payzen-payment/class-wc-gateway-payzenstd.php:906-922 | `capture_delay` is the module's value when numeric, else the general one; `validation_mode` is the module's unless '-1', else the general one |
| StdRequest.GeneralStageOverrides | woo-payzen-payment/class-wc-gateway-payzenstd.php:916-922 | the same override rule holds on the request built from the order onward |
| StdRequest.LateStageFacts | woo-payzen-payment/class-wc-gateway-payzenstd.php:924-969 | the subscription branch writes the RRULE to `sub_desc`; page action and identifier are the token decision's, or left as they were when it sets none |
| StdRequest.FilledPhone | woo-payzen-payment/class-wc-gateway-payzenstd.php:830 | the filled request's `cust_phone` is the billing phone without separators |
| StdRequest.FilledThreeds | woo-payzen-payment/class-wc-gateway-payzenstd.php:855-860 | the filled request's `threeds_mpi` is the 3-D Secure decision for the order total |
| StdRequest.FilledOverrides | woo-payzen-payment/class-wc-gateway-payzenstd.php:916-922 | the filled request's capture delay and validation mode follow the override rules |
| StdRequest.FilledSubscriptionRule | woo-payzen-payment/class-wc-gateway-payzenstd.php:924-935 | in the subscription branch the filled request's `sub_desc` is the recurrence rule of the subscription |
| StdRequest.FilledPageAction | woo-payzen-payment/class-wc-gateway-payzenstd.php:924-969 | the filled request's `page_action` is the table's, or untouched when the table sets none |
| StdRequest.FilledIdentifier | woo-payzen-payment/class-wc-gateway-payzenstd.php:924-969 | the filled request's `identifier` is the saved one exactly where the table sends it, untouched otherwise |
| StdRequest.SetOrderData | woo-payzen-payment/class-wc-gateway-payzenstd.php:814-868 | the order, customer and shipping data, VAT, 3-D Secure and language calls leave the request at the order-data stage |
| StdRequest.SetOrderFields | woo-payzen-payment/class-wc-gateway-payzenstd.php:814-903 | the calls before the configuration keys leave the request at the order stage |
| StdRequest.SetConfigFields | woo-payzen-payment/class-wc-gateway-payzenstd.php:906-913 | the `foreach` over the configuration keys sets them in order, as the configuration stage describes |
| StdRequest.SetTokenFields | woo-payzen-payment/class-wc-gateway-payzenstd.php:924-969 | the subscription branch or else the token branch leave the request at the late stage |
| StdRequest.FillRequest | woo-payzen-payment/class-wc-gateway-payzenstd.php:792-970 | an unknown store currency stops with the request untouched; otherwise the request holds exactly `Filled`, about which the lemmas above state each decision |
| Regrouped.DefaultLabel | woo-payzen-payment/class-wc-gateway-payzenregroupedother.php:332-335 | the default label is non-empty and reads "Payment with <card name>" for a known card type |
| Regrouped.MapCountries | woo-payzen-payment/class-wc-gateway-payzenregroupedother.php:343-350 | the stored countries have exactly the submitted codes as keys, each mapped to its allowed-country name (null for an unknown code) |
| Regrouped.Clean | woo-payzen-payment/class-wc-gateway-payzenregroupedother.php:332-351 | a saved row has a non-empty label: its own when it had one, else "Payment with <card name>"; its other settings are unchanged; its countries are an empty map when none were submitted, else each submitted code mapped to its allowed-country name |
| Regrouped.InMeans | woo-payzen-payment/class-wc-gateway-payzenregroupedother.php:327 | `in_array` on the used payment means finds a row's mean iff a row with a loosely equal mean was saved |
| Regrouped.UsedMeans | woo-payzen-payment/class-wc-gateway-payzenregroupedother.php:319-331 | the loop's `$used_cards` contains a mean, loosely, iff an earlier valid row has it |
| Regrouped.ValidateStep | woo-payzen-payment/class-wc-gateway-payzenregroupedother.php:321-331 | row `i` is saved iff its amounts are valid and its payment mean is not in `$used_cards` |
| Regrouped.CleanRow | woo-payzen-payment/class-wc-gateway-payzenregroupedother.php:332-351 | the loop body of a saved row produces the cleaned row |
| Regrouped.ValidateRow | woo-payzen-payment/class-wc-gateway-payzenregroupedother.php:321-351 | one turn of the loop keeps `$used_cards` equal to the means of the rows saved so far and the result equal to those rows cleaned |
| Regrouped.ValidatePaymentMeans | woo-payzen-payment/class-wc-gateway-payzenregroupedother.php:315-356 | the stored table is exactly the first valid row of each payment mean, cleaned, in submission order, under its own key |
| Regrouped.StoredRowsKept | woo-payzen-payment/class-wc-gateway-payzenregroupedother.php:321-355 | every stored row is a submitted row, under its own key, that is valid and first for its payment mean |
| Regrouped.KeptRowsStored | woo-payzen-payment/class-wc-gateway-payzenregroupedother.php:321-355 | every valid submitted row that is first for its payment mean is stored |
| Regrouped.ValidatedUnique | woo-payzen-payment/class-wc-gateway-payzenregroupedother.php:327-331 | no two stored rows have loosely equal payment means |
| Regrouped.StoredRowsWellFormed | woo-payzen-payment/class-wc-gateway-payzenregroupedother.php:322-335 | every stored row has a non-empty label and bounds that are empty or non-negative numbers |
| Regrouped.DropsBadAmounts | woo-payzen-payment/class-wc-gateway-payzenregroupedother.php:322-325 | a row with a set bound that is non-numeric or negative is never saved |
| Regrouped.FirstOccurrenceKept | woo-payzen-payment/class-wc-gateway-payzenregroupedother.php:327-329 | of two valid rows with loosely equal payment means the later one is not saved |
| Regrouped.GetAvailableOptions | woo-payzen-payment/class-wc-gateway-payzenregroupedother.php:392-412 | the loop returns the options that admit the cart total and shipping country, in table order |
| Regrouped.AvailableMembers | woo-payzen-payment/class-wc-gateway-payzenregroupedother.php:403-407 | an option is offered iff it is in the stored table (same key and row), its set bounds admit the total and its countries are empty or hold the shipping country |
| Regrouped.AvailableUnique | woo-payzen-payment/class-wc-gateway-payzenregroupedother.php:403-411 | filtering keeps payment means unique |
| Regrouped.FirstMatchSpec | woo-payzen-payment/class-wc-gateway-payzenregroupedother.php:520-526 | the option found matches the code and no earlier option does; false iff no option matches |
| Regrouped.FirstMatchStep | woo-payzen-payment/class-wc-gateway-payzenregroupedother.php:520-524 | one turn of the search returns the current option when it matches, else searches on |
| Regrouped.GetMean | woo-payzen-payment/class-wc-gateway-payzenregroupedother.php:516-527 | `get_mean` returns the first available option matching the code, false when none does |
| Regrouped.FirstMatchUnique | woo-payzen-payment/class-wc-gateway-payzenregroupedother.php:516-527 | in a table with unique means, the option found for a code is the one that matches it |
| Regrouped.GetMeanUnique | woo-payzen-payment/class-wc-gateway-payzenregroupedother.php:516-527 | on a validated table, `get_mean` for a selected code returns the only available option with that payment mean |
| Regrouped.RegroupRule | woo-payzen-payment/class-wc-gateway-payzenregroupedother.php:361-397 | on WC 2.3.0 and later: needs `regroup_enabled === 'yes'` and, with a cart, at least two options available for its total and the customer's shipping country (line 397); before: with a cart, at least one; always with the one-time gateway's checks |
| Regrouped.OverrideRules | woo-payzen-payment/class-wc-gateway-payzenregroupedother.php:496-506 | `payment_cards` is the selected card; `capture_delay` is the option's only when numeric; `validation_mode` is the option's unless '-1' (null without an option); every other field keeps its value |
| Regrouped.CartDataSent | woo-payzen-payment/class-wc-gateway-payzenregroupedother.php:508-511 | with `send_cart_data === 'y'` every cart field is in the request |
| Regrouped.NoTokenDecision | woo-payzen-payment/class-wc-gateway-payzenstd.php:956 | the grouped gateway (no subscriptions handler, id not `payzenstd`) sets neither page action nor identifier |
| Regrouped.FillRequest | woo-payzen-payment/class-wc-gateway-payzenregroupedother.php:488-514 | for the grouped gateway's settings (its own id, no subscriptions handler, no 'card_data_mode' field, lines 18-73): the parent request (untouched on an unknown currency), then the selected card and the overrides of the option `get_mean` finds |

## Left out

- HTML and JavaScript output (`payment_fields`, the admin script, the forms and iframe), the settings form definitions, icons, descriptions and translations (`__()`): presentation only.
- Hook registration, logging, `delete_transient` and `wp_die`: effects on the host. The stop on an unknown currency is modelled as a `false` result of `FillRequest`.
- The payment library (`PayzenApi`, `PayzenRequest` internals): currency look-up, amount conversion to minor units, supported languages and card types, signing and rendering are inputs or a plain field map.
- PayzenRequest.Request.Set: the library's `set` checks each value against the field's format and can refuse it; that validation is not modelled, and `Set` always stores the value.
- `send_cart_data`: its class is not part of this model; the cart fields it would set are an input map.
- The subscriptions handler: its verdicts and `subscription_info` are inputs.
- `validate_text_field` sanitising in the amount validators: the submitted value is taken as already sanitised.
- The `$_POST` fallback of `validate_payment_means_field` when no value is passed: the submitted table is an input.
- The WooCommerce version comparison: a boolean input. The clock, the locale, the store currency and the current user are inputs too.
- Floating-point cart totals: amounts are `real`, so float rounding is not modelled.
- Php.IsNumeric: leading whitespace, trailing whitespace (accepted by PHP 8, as in "1 "), exponents ("1e3") and hexadecimal forms are not accepted, so such bounds count as non-numeric.
- Php.Num: a string that is not numeric reads as 0 in comparisons with a number. PHP 7 reads its leading numeric prefix instead ("12abc" as 12, 0 only without one), and PHP 8 compares such a string with a number as strings. The validators only ever store numeric bounds, so this matters only for options stored by other means.
- Php.LooseEq: numeric strings compare as exact decimals, with no int/float conversion or rounding; PHP compares them as int or float, so two long numeric strings that differ beyond float precision can be `==` in PHP and not in the model (and PHP's `==` is then not transitive).
- Regrouped.ValidatePaymentMeans: the model builds the kept list in order rather than `unset`ting rows of a copy; the result is the same ordered array.
- Regrouped.MapCountries: the country map is a Dafny map, so the order of the country codes is not kept.
- StdGateway.FilterAllowedCountries: the result is a Dafny map, so the order of the gateway's list, which PHP's result follows, is not kept.
- Regrouped.GetAvailableOptions: a stored option that is not an array is taken as an empty table.
