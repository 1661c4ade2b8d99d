/**
 * The request objects the code hands to the Google Pay API and to the merchant
 * backend, built from the (already defaulted) options bag. Object shapes follow
 * the Google Pay API for Web object reference: PaymentDataRequest,
 * IsReadyToPayRequest, PaymentMethod and TokenizationSpecification.
 */
module Requests {
  import opened JsValues

  const BaseMethodKey := "googleBaseCardPaymentMethod"
  const TokenizationKey := "tokenizationSpecification"

  /** The card payment method used when the caller supplies none. */
  function DefaultBaseCardPaymentMethod(): (r: Value)
    ensures Truthy(r)
    ensures r.Obj? && r.props.Keys == {"type", "parameters"}
    ensures Prop(r, "parameters").Obj? && Prop(r, "parameters").props.Keys == {"allowedAuthMethods", "allowedCardNetworks"}
    ensures Prop(r, "type") == Str("CARD")
    ensures Prop(Prop(r, "parameters"), "allowedAuthMethods") == Arr([Str("PAN_ONLY"), Str("CRYPTOGRAM_3DS")])
    ensures Prop(Prop(r, "parameters"), "allowedCardNetworks")
            == Arr([Str("AMEX"), Str("DISCOVER"), Str("JCB"), Str("MASTERCARD"), Str("VISA")])
  {
    Obj(map[
      "type" := Str("CARD"),
      "parameters" := Obj(map[
        "allowedAuthMethods" := Arr([Str("PAN_ONLY"), Str("CRYPTOGRAM_3DS")]),
        "allowedCardNetworks" := Arr([Str("AMEX"), Str("DISCOVER"), Str("JCB"), Str("MASTERCARD"), Str("VISA")])
      ])
    ])
  }

  /** The direct tokenization descriptor carrying the merchant's public key. */
  function TokenizationSpecification(publicKey: Value): (r: Value)
    ensures r.Obj? && r.props.Keys == {"type", "parameters"}
    ensures Prop(r, "type") == Str("DIRECT")
    ensures Prop(r, "parameters").Obj? && Prop(r, "parameters").props.Keys == {"protocolVersion", "publicKey"}
    ensures Prop(Prop(r, "parameters"), "protocolVersion") == Str("ECv1")
    ensures Prop(Prop(r, "parameters"), "publicKey") == publicKey
  {
    Obj(map[
      "type" := Str("DIRECT"),
      "parameters" := Obj(map["protocolVersion" := Str("ECv1"), "publicKey" := publicKey])
    ])
  }

  /** The own enumerable properties `Object.assign` copies from a source object. */
  function OwnProps(v: Value): (r: Props)
  {
    if v.Obj? then v.props else map[]
  }

  /**
   * `Object.assign({}, base, {tokenizationSpecification: tokenization})`: every
   * property of the base method, with the tokenization key added last so that
   * it wins over a base property of the same name.
   */
  function CardPaymentMethod(base: Value, tokenization: Value): (r: Value)
    ensures r.Obj?
    ensures r.props.Keys == OwnProps(base).Keys + {TokenizationKey}
    ensures r.props[TokenizationKey] == tokenization
    ensures forall k :: k in OwnProps(base) && k != TokenizationKey ==> r.props[k] == OwnProps(base)[k]
  {
    Obj(map[] + OwnProps(base) + map[TokenizationKey := tokenization])
  }

  datatype MerchantInfo = MerchantInfo(merchantId: Value, merchantName: Value)

  datatype TransactionInfo = TransactionInfo(currencyCode: Value, totalPriceStatus: string, totalPrice: string)

  datatype PaymentDataRequest = PaymentDataRequest(
    apiVersion: nat,
    apiVersionMinor: nat,
    allowedPaymentMethods: seq<Value>,
    merchantInfo: MerchantInfo,
    transactionInfo: TransactionInfo)

  /** The request passed to `paymentsClient.loadPaymentData`. */
  function PaymentDataRequestFor(options: Props): (r: PaymentDataRequest)
    ensures r.apiVersion == 2 && r.apiVersionMinor == 0
    ensures r.allowedPaymentMethods
            == [CardPaymentMethod(Get(options, BaseMethodKey), TokenizationSpecification(Get(options, "googlePayPublicKey")))]
    ensures r.merchantInfo.merchantId == Get(options, "merc_id")
    ensures r.merchantInfo.merchantName == Get(options, "merc_name")
    ensures r.transactionInfo.currencyCode == Get(options, "currency")
    ensures r.transactionInfo.totalPriceStatus == "FINAL"
    ensures r.transactionInfo.totalPrice == JsString(Get(options, "sum"))
  {
    var token := TokenizationSpecification(Get(options, "googlePayPublicKey"));
    PaymentDataRequest(
      2, 0,
      [CardPaymentMethod(Get(options, BaseMethodKey), token)],
      MerchantInfo(Get(options, "merc_id"), Get(options, "merc_name")),
      TransactionInfo(Get(options, "currency"), "FINAL", JsString(Get(options, "sum"))))
  }

  /**
   * The one allowed payment method is the caller's base method with the
   * direct tokenization descriptor for the configured public key attached:
   * protocol ECv1, and no property beyond the base method's and the
   * descriptor.
   */
  lemma AllowedMethodCarriesPublicKey(options: Props)
    ensures var m := PaymentDataRequestFor(options).allowedPaymentMethods[0];
            var base := OwnProps(Get(options, BaseMethodKey));
            var t := Prop(m, TokenizationKey);
            && m.Obj? && m.props.Keys == base.Keys + {TokenizationKey}
            && t.Obj? && t.props.Keys == {"type", "parameters"}
            && Prop(t, "type") == Str("DIRECT")
            && Prop(t, "parameters") == Obj(map["protocolVersion" := Str("ECv1"), "publicKey" := Get(options, "googlePayPublicKey")])
            && forall k :: k in base && k != TokenizationKey ==> Prop(m, k) == base[k]
  {
  }

  /**
   * `totalPrice` is the amount as text: a string amount is passed through and an
   * integer amount is written in decimal, from which it can be read back.
   */
  lemma TotalPriceIsTheSum(options: Props)
    ensures var price := PaymentDataRequestFor(options).transactionInfo.totalPrice;
            && (Get(options, "sum").Str? ==> price == Get(options, "sum").s)
            && (Get(options, "sum").Num? ==> ParseNumber(price) == Some(Get(options, "sum").n))
  {
  }

  /** Two integer amounts that differ never yield the same `totalPrice`. */
  lemma TotalPriceDistinguishesSums(o1: Props, o2: Props)
    requires Get(o1, "sum").Num? && Get(o2, "sum").Num?
    requires Get(o1, "sum") != Get(o2, "sum")
    ensures PaymentDataRequestFor(o1).transactionInfo.totalPrice != PaymentDataRequestFor(o2).transactionInfo.totalPrice
  {
  }

  datatype ReadinessRequest = ReadinessRequest(apiVersion: nat, apiVersionMinor: nat, allowedPaymentMethods: seq<Value>)

  /** The request passed to `paymentsClient.isReadyToPay`: the base method alone, without tokenization. */
  function ReadinessRequestFor(options: Props): (r: ReadinessRequest)
    ensures r.apiVersion == 2 && r.apiVersionMinor == 0
    ensures r.allowedPaymentMethods == [Get(options, BaseMethodKey)]
  {
    ReadinessRequest(2, 0, [Get(options, BaseMethodKey)])
  }

  const FormRequestIdQuery := "?form_request_id="

  /**
   * The backend endpoint: the request URL with the form request id as a query
   * parameter. For a string request URL `u` the text after
   * `u + "?form_request_id="` is the id as text, and an integer id reads back
   * from it.
   */
  function BackendUrl(options: Props): (r: string)
    ensures var url := Get(options, "request_url");
            var id := Get(options, "form_request_id");
            var n := if url.Str? then |url.s| + |FormRequestIdQuery| else 0;
            url.Str? ==>
              && |r| >= n
              && r[..|url.s|] == url.s
              && r[|url.s|..n] == FormRequestIdQuery
              && (id.Str? ==> r[n..] == id.s)
              && (id.Num? ==> ParseNumber(r[n..]) == Some(id.n))
  {
    var prefix := JsString(Get(options, "request_url")) + FormRequestIdQuery;
    var id := JsString(Get(options, "form_request_id"));
    assert (prefix + id)[|prefix|..] == id;
    prefix + id
  }

  /** The JSON body posted to the backend (before serialisation). */
  datatype BackendBody = BackendBody(
    googleToken: Value,
    pub_key: Value,
    link_id: Value,
    sum: Value,
    refill_id: Value,
    apikey: Value,
    client_id: Value)

  /** The token goes with the public key; the correlation fields are forwarded as given. */
  function BackendBodyFor(options: Props, googleToken: Value): (r: BackendBody)
    ensures r.googleToken == googleToken
    ensures r.pub_key == Get(options, "googlePayPublicKey")
    ensures r.link_id == Get(options, "link_id") && r.refill_id == Get(options, "refill_id")
    ensures r.apikey == Get(options, "apikey") && r.client_id == Get(options, "client_id")
    ensures r.sum == Get(options, "sum")
  {
    BackendBody(
      googleToken,
      Get(options, "googlePayPublicKey"),
      Get(options, "link_id"),
      Get(options, "sum"),
      Get(options, "refill_id"),
      Get(options, "apikey"),
      Get(options, "client_id"))
  }
}
