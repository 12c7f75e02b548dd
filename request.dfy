/**
 * The outbound payment request: a map from form field names to values that
 * the gateways fill with `set` and `setFromArray` before the form is signed
 * and rendered. Signing, field format checks and HTML rendering belong to the
 * payment library and are not part of this model.
 */
module PayzenRequest {

  /**
   * The request fields the gateways write, each standing for its wire name
   * in snake case (`CustPhone` is 'cust_phone', `ThreedsMpi` is
   * 'threeds_mpi'); `Other` stands for cart-data fields.
   */
  datatype FieldName =
    | Amount | Contrib | Currency | OrderId | OrderInfo | OrderInfo2
    | CustId | CustEmail | CustFirstName | CustLastName | CustAddress | CustZip
    | CustCountry | CustPhone | CustCity | CustState
    | ShipToFirstName | ShipToLastName | ShipToStreet | ShipToStreet2 | ShipToCity
    | ShipToState | ShipToCountry | ShipToZip | ShippingAmount | UrlReturn
    | TotalAmountVat | ThreedsMpi | Language | AvailableLanguages | PaymentCards
    | RedirectEnabled | RedirectSuccessMessage | RedirectErrorMessage
    | SiteId | KeyTest | KeyProd | CtxMode | PlatformUrl | CaptureDelay | ValidationMode
    | RedirectSuccessTimeout | RedirectErrorTimeout | ReturnMode | SignAlgo
    | SubAmount | SubCurrency | SubDesc | SubEffectDate | SubInitAmount | SubInitAmountNumber
    | PageAction | Identifier
    | Other(name: string)

  /** A PHP value stored in a request field: null, a string, an integer or a boolean. */
  datatype Field = Null | Str(s: string) | Int(i: int) | Flag(b: bool)

  class Request {
    var fields: map<FieldName, Field>

    constructor ()
      ensures fields == map[]
    {
      fields := map[];
    }

    /** `set($name, $value)`: the field takes the new value, every other field is kept. */
    method Set(name: FieldName, value: Field)
      modifies this
      ensures fields == old(fields)[name := value]
    {
      fields := fields[name := value];
    }

    /** `setFromArray($params)`: `set` for every entry; keys are distinct, so the order is immaterial. */
    method SetFromArray(params: map<FieldName, Field>)
      modifies this
      ensures fields == old(fields) + params
    {
      var rest := params.Keys;
      while rest != {}
        invariant rest <= params.Keys
        invariant fields == old(fields) + map k | k in params.Keys - rest :: params[k]
        decreases rest
      {
        var k :| k in rest;
        Set(k, params[k]);
        rest := rest - {k};
      }
      assert params.Keys - rest == params.Keys;
    }
  }
}
