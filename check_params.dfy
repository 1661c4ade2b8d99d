/**
 * The shared parameter validator. It rejects missing options or callbacks in a
 * fixed order and, once the callbacks are in place, writes defaults into the
 * caller's options object: the base card payment method for both operations,
 * the currency for payment processing, the environment for button setup.
 *
 * `Check` is the specification: it maps the options before the call to the
 * verdict and the options after the call. `CheckParams` is the in-place
 * validator, proved to agree with it.
 */
module ParamCheck {
  import opened JsValues
  import opened Requests

  /** The `type` argument the two exported operations pass. */
  const ProcessingKind := "GooglePayProcessing"
  const ButtonKind := "showGooglePayButton"

  const DefaultCurrency := Str("RUB")
  const DefaultEnvironment := Str("PRODUCTION")

  /** The only option keys the validator ever writes. */
  const DefaultedKeys := {BaseMethodKey, "currency", "environment"}

  /** Which check rejected the call (the subject of the log line). */
  datatype Reason =
    | NoOptions
    | NoCallbacks
    | NoFailCallback
    | NoSuccessCallback
    | NoPaymentsClient
    | NoSetPaymentClient

  /** `false`, or the wrapper `{options}` around the same options object. */
  datatype Verdict = Refused(reason: Reason) | Accepted

  datatype Checked = Checked(verdict: Verdict, options: Option<Props>)

  /** Writes `value` under `key` unless the present value is truthy. */
  function DefaultTo(p: Props, key: string, value: Value): (r: Props)
    ensures Truthy(Get(p, key)) ==> r == p
    ensures !Truthy(Get(p, key)) ==> r == p[key := value]
  {
    if Truthy(Get(p, key)) then p else p[key := value]
  }

  /** The four checks both operations share, in the order they run. */
  function CommonRefusal(options: Option<Props>, callbacks: Value): (r: Option<Reason>)
  {
    if options.None? then Some(NoOptions)
    else if !Truthy(callbacks) then Some(NoCallbacks)
    else if !IsFunction(Prop(callbacks, "fail")) then Some(NoFailCallback)
    else if !IsFunction(Prop(callbacks, "success")) then Some(NoSuccessCallback)
    else None
  }

  /**
   * The validator as a function of the options before the call. An accepted
   * call guarantees what the operations go on to use: both callbacks, a
   * truthy base method and, per operation, a truthy payments client and
   * currency, or a truthy environment and a setPaymentClient function.
   */
  function Check(kind: string, options: Option<Props>, callbacks: Value): (r: Checked)
    ensures r.options.Some? <==> options.Some?
    ensures r.verdict.Accepted? ==> CommonRefusal(options, callbacks).None? && r.options.Some?
    ensures r.verdict.Accepted? ==> Truthy(Get(r.options.value, BaseMethodKey))
    ensures r.verdict.Accepted? && kind == ProcessingKind ==>
              Truthy(Get(r.options.value, "paymentsClient")) && Truthy(Get(r.options.value, "currency"))
    ensures r.verdict.Accepted? && kind == ButtonKind ==>
              Truthy(Get(r.options.value, "environment")) && IsFunction(Prop(callbacks, "setPaymentClient"))
    ensures r.verdict == Refused(NoPaymentsClient) ==> kind == ProcessingKind
    ensures r.verdict == Refused(NoSetPaymentClient) ==> kind == ButtonKind
  {
    match CommonRefusal(options, callbacks)
    case Some(reason) => Checked(Refused(reason), options)
    case None =>
      var p0 := DefaultTo(options.value, BaseMethodKey, DefaultBaseCardPaymentMethod());
      var after :=
        if kind != ProcessingKind then Checked(Accepted, Some(p0))
        else if !Truthy(Get(p0, "paymentsClient")) then Checked(Refused(NoPaymentsClient), Some(p0))
        else Checked(Accepted, Some(DefaultTo(p0, "currency", DefaultCurrency)));
      if after.verdict.Refused? || kind != ButtonKind then after
      else
        var p1 := DefaultTo(after.options.value, "environment", DefaultEnvironment);
        if !IsFunction(Prop(callbacks, "setPaymentClient")) then Checked(Refused(NoSetPaymentClient), Some(p1))
        else Checked(Accepted, Some(p1))
  }

  /**
   * The in-place validator: checks the arguments, writes the defaults into the
   * options object and answers `false` (`Refused`) or `{options}` (`Accepted`).
   */
  method CheckParams(kind: string, options: JsObject?, callbacks: Value) returns (verdict: Verdict)
    modifies options
    ensures Checked(verdict, PropsOf(options)) == Check(kind, old(PropsOf(options)), callbacks)
  {
    if options == null {
      return Refused(NoOptions);
    }
    if !Truthy(callbacks) {
      return Refused(NoCallbacks);
    }
    if !IsFunction(Prop(callbacks, "fail")) {
      return Refused(NoFailCallback);
    }
    if !IsFunction(Prop(callbacks, "success")) {
      return Refused(NoSuccessCallback);
    }
    if !Truthy(Get(options.props, BaseMethodKey)) {
      options.props := options.props[BaseMethodKey := DefaultBaseCardPaymentMethod()];
    }
    if kind == ProcessingKind {
      if !Truthy(Get(options.props, "paymentsClient")) {
        return Refused(NoPaymentsClient);
      }
      if !Truthy(Get(options.props, "currency")) {
        options.props := options.props["currency" := DefaultCurrency];
      }
    }
    if kind == ButtonKind {
      if !Truthy(Get(options.props, "environment")) {
        options.props := options.props["environment" := DefaultEnvironment];
      }
      if !IsFunction(Prop(callbacks, "setPaymentClient")) {
        return Refused(NoSetPaymentClient);
      }
    }
    return Accepted;
  }

  // ---------------------------------------------------------------------------
  // Properties of the validator

  /**
   * The common checks run first, in this order, and each one that fails
   * refuses the call without touching the options.
   */
  lemma EarlyRefusalsInOrder(kind: string, options: Option<Props>, callbacks: Value)
    ensures var r := Check(kind, options, callbacks);
            && (r.verdict == Refused(NoOptions) <==> options.None?)
            && (r.verdict == Refused(NoCallbacks) <==> options.Some? && !Truthy(callbacks))
            && (r.verdict == Refused(NoFailCallback) <==>
                  options.Some? && Truthy(callbacks) && !IsFunction(Prop(callbacks, "fail")))
            && (r.verdict == Refused(NoSuccessCallback) <==>
                  options.Some? && Truthy(callbacks) && IsFunction(Prop(callbacks, "fail"))
                  && !IsFunction(Prop(callbacks, "success")))
            && (CommonRefusal(options, callbacks).Some? ==> r.options == options)
  {
  }

  /**
   * Once the common checks pass, a falsy base method is replaced by the
   * default and a truthy one is kept, whatever the verdict.
   */
  lemma BaseMethodDefaulted(kind: string, p: Props, callbacks: Value)
    requires CommonRefusal(Some(p), callbacks).None?
    ensures var after := Check(kind, Some(p), callbacks).options.value;
            && (Truthy(Get(p, BaseMethodKey)) ==> Get(after, BaseMethodKey) == Get(p, BaseMethodKey))
            && (!Truthy(Get(p, BaseMethodKey)) ==> Get(after, BaseMethodKey) == DefaultBaseCardPaymentMethod())
  {
  }

  /**
   * Payment processing: a falsy payments client refuses the call after the base
   * method was defaulted, with the currency left alone; otherwise a falsy
   * currency becomes "RUB", a truthy one is kept, and the environment is never
   * written.
   */
  lemma ProcessingDefaults(p: Props, callbacks: Value)
    requires CommonRefusal(Some(p), callbacks).None?
    ensures var r := Check(ProcessingKind, Some(p), callbacks);
            var after := r.options.value;
            && (r.verdict.Accepted? <==> Truthy(Get(p, "paymentsClient")))
            && (r.verdict.Refused? ==> r.verdict.reason == NoPaymentsClient
                                       && after == DefaultTo(p, BaseMethodKey, DefaultBaseCardPaymentMethod()))
            && (r.verdict.Accepted? ==> Get(after, "currency") == (if Truthy(Get(p, "currency")) then Get(p, "currency") else DefaultCurrency))
            && Get(after, "environment") == Get(p, "environment")
  {
  }

  /**
   * Button setup: a falsy environment becomes "PRODUCTION" and a truthy one is
   * kept; a missing setPaymentClient callback then refuses the call, after both
   * defaults were written; the currency is never written.
   */
  lemma ButtonDefaults(p: Props, callbacks: Value)
    requires CommonRefusal(Some(p), callbacks).None?
    ensures var r := Check(ButtonKind, Some(p), callbacks);
            var after := r.options.value;
            && (r.verdict.Accepted? <==> IsFunction(Prop(callbacks, "setPaymentClient")))
            && (r.verdict.Refused? ==> r.verdict.reason == NoSetPaymentClient)
            && Get(after, "environment") == (if Truthy(Get(p, "environment")) then Get(p, "environment") else DefaultEnvironment)
            && Truthy(Get(after, BaseMethodKey))
            && Get(after, "currency") == Get(p, "currency")
            && Get(after, "paymentsClient") == Get(p, "paymentsClient")
  {
  }

  /** Any other kind gets the base-method default and nothing else, and is accepted. */
  lemma OtherKindDefaults(kind: string, p: Props, callbacks: Value)
    requires kind != ProcessingKind && kind != ButtonKind
    requires CommonRefusal(Some(p), callbacks).None?
    ensures Check(kind, Some(p), callbacks) == Checked(Accepted, Some(DefaultTo(p, BaseMethodKey, DefaultBaseCardPaymentMethod())))
  {
  }

  /**
   * Frame: a key outside the three defaulted ones is never written, and a
   * defaulted key is written only when its value was falsy.
   */
  lemma CheckFrame(kind: string, p: Props, callbacks: Value, key: string)
    ensures var after := Check(kind, Some(p), callbacks).options.value;
            && (key !in DefaultedKeys ==> Get(after, key) == Get(p, key))
            && (Truthy(Get(p, key)) ==> Get(after, key) == Get(p, key))
            && after.Keys <= p.Keys + DefaultedKeys
  {
    if CommonRefusal(Some(p), callbacks).None? {
      var p0 := DefaultTo(p, BaseMethodKey, DefaultBaseCardPaymentMethod());
      DefaultToKeeps(p, BaseMethodKey, DefaultBaseCardPaymentMethod(), key);
      DefaultToKeeps(p0, "currency", DefaultCurrency, key);
      DefaultToKeeps(p0, "environment", DefaultEnvironment, key);
      var p1 := DefaultTo(p0, "currency", DefaultCurrency);
      DefaultToKeeps(p1, "environment", DefaultEnvironment, key);
    }
  }

  /** Defaulting one of the three keys keeps every other key and every truthy value. */
  lemma DefaultToKeeps(p: Props, defaulted: string, value: Value, key: string)
    requires defaulted in DefaultedKeys
    ensures var q := DefaultTo(p, defaulted, value);
            && (key !in DefaultedKeys || Truthy(Get(p, key)) ==> Get(q, key) == Get(p, key))
            && q.Keys <= p.Keys + DefaultedKeys
  {
  }

  /**
   * Idempotence: validating options the validator already accepted accepts
   * them again and writes nothing.
   */
  lemma CheckIdempotent(kind: string, p: Props, callbacks: Value)
    requires Check(kind, Some(p), callbacks).verdict.Accepted?
    ensures var after := Check(kind, Some(p), callbacks).options;
            Check(kind, after, callbacks) == Checked(Accepted, after)
  {
  }
}
