/**
 * The two exported operations, `GooglePayProcessing` and `showGooglePayButton`.
 *
 * The Google Pay client and the merchant backend are outside the model: what
 * they answer is a parameter (`ReadyOutcome`, `LoadOutcome`, `BackendOutcome`).
 * What the code does is recorded as a trace of events: the calls it makes into
 * the SDK and the backend, and the caller's callbacks it invokes. The promise
 * continuations run one after the other, so the trace is their concatenation.
 */
module Flows {
  import opened JsValues
  import opened Requests
  import opened ParamCheck

  datatype Event =
    | NewPaymentsClient(environment: Value)                 // new PaymentsClient({environment})
    | SetPaymentClient                                      // callbacks.setPaymentClient(client)
    | IsReadyToPay(readiness: ReadinessRequest)             // paymentsClient.isReadyToPay(request)
    | LoadPaymentData(client: Value, request: PaymentDataRequest)  // options.paymentsClient.loadPaymentData(request)
    | PostToBackend(url: string, body: BackendBody)         // $.ajax POST
    | Success                                               // callbacks.success()
    | Fail                                                  // callbacks.fail()

  /** What an exported function returns synchronously: `false` or nothing. */
  datatype Returned = ReturnedFalse | ReturnedNothing

  /** How `isReadyToPay` settles. */
  datatype ReadyOutcome = ReadyResolved(response: Value) | ReadyRejected

  /** What `JSON.parse` makes of `paymentData.paymentMethodData.tokenizationData.token`. */
  datatype TokenText = TokenParsed(googleToken: Value) | TokenUnreadable

  /** How `loadPaymentData` settles. */
  datatype LoadOutcome = LoadResolved(token: TokenText) | LoadRejected

  /** How the backend POST ends: a parsed JSON response, or the `error` handler. */
  datatype BackendOutcome = Answered(response: Value) | TransportError

  /** The synchronous return, the events in order, and the options object afterwards. */
  datatype Run = Run(returned: Returned, trace: seq<Event>, options: Option<Props>)

  function Count(s: seq<Event>, e: Event): (r: nat)
  {
    if s == [] then 0 else (if s[0] == e then 1 else 0) + Count(s[1..], e)
  }

  lemma {:induction false} CountAppend(a: seq<Event>, b: seq<Event>, e: Event)
    ensures Count(a + b, e) == Count(a, e) + Count(b, e)
  {
    if a != [] {
      assert (a + b)[1..] == a[1..] + b;
      CountAppend(a[1..], b, e);
    } else {
      assert a + b == b;
    }
  }

  /** No callback but the last event: nothing happens after `success` or `fail`. */
  predicate CallbackLast(t: seq<Event>)
  {
    forall i :: 0 <= i < |t| - 1 ==> t[i] != Success && t[i] != Fail
  }

  /** Putting an event that is not a callback in front keeps the callbacks last. */
  lemma CallbackLastAfter(e: Event, rest: seq<Event>)
    requires e != Success && e != Fail
    requires CallbackLast(rest)
    ensures CallbackLast([e] + rest)
  {
    var t := [e] + rest;
    forall i | 0 <= i < |t| - 1
      ensures t[i] != Success && t[i] != Fail
    {
      if i > 0 {
        assert t[i] == rest[i - 1];
      }
    }
  }

  /**
   * `response.code != undefined && response.code == "0"`. The first test adds
   * nothing: the codes that pass are those whose text is "0", and `false`.
   */
  predicate IsSuccessCode(code: Value)
    ensures IsSuccessCode(code) <==> JsString(code) == "0" || code == Bool(false)
  {
    !(code.Undefined? || code.Null?) && LooselyEqualsZeroText(code)
  }

  /**
   * The backend handlers: `success` with a code loosely equal to "0" calls
   * success, any other code calls fail, the `error` handler calls fail. A
   * `null` response makes the success handler throw before either callback.
   */
  function BackendEvents(backend: BackendOutcome): (r: seq<Event>)
    ensures r == [Success] <==> backend.Answered? && backend.response.Obj? && IsSuccessCode(Prop(backend.response, "code"))
    ensures r == [Fail] <==> backend.TransportError? || (backend.Answered? && !(backend.response.Undefined? || backend.response.Null?)
                                                        && !IsSuccessCode(Prop(backend.response, "code")))
    ensures r == [] || r == [Success] || r == [Fail]
  {
    match backend
    case TransportError => [Fail]
    case Answered(response) =>
      if response.Undefined? || response.Null? then []
      else if IsSuccessCode(Prop(response, "code")) then [Success]
      else [Fail]
  }

  /**
   * What follows `loadPaymentData`: on a readable token the POST to the backend
   * and its outcome; on a rejection or an unreadable token, the `.catch` only
   * logs, so nothing. The POST comes first and at most one callback follows.
   */
  function LoadEvents(options: Props, load: LoadOutcome, backend: BackendOutcome): (r: seq<Event>)
    ensures r != [] <==> load.LoadResolved? && load.token.TokenParsed?
    ensures r != [] ==> r[0] == PostToBackend(BackendUrl(options), BackendBodyFor(options, load.token.googleToken))
    ensures |r| <= 2 && CallbackLast(r)
    ensures |r| == 2 ==> r[1] == Success || r[1] == Fail
  {
    match load
    case LoadRejected => []
    case LoadResolved(TokenUnreadable) => []
    case LoadResolved(TokenParsed(googleToken)) =>
      [PostToBackend(BackendUrl(options), BackendBodyFor(options, googleToken))] + BackendEvents(backend)
  }

  /**
   * `GooglePayProcessing(options, callbacks)` for the given SDK and backend
   * outcomes. Only validation writes the options; at most three events happen,
   * and a callback, if any, is the last of them.
   */
  function ProcessingRun(options: Option<Props>, callbacks: Value, load: LoadOutcome, backend: BackendOutcome): (r: Run)
    ensures r.options == Check(ProcessingKind, options, callbacks).options
    ensures |r.trace| <= 3
    ensures CallbackLast(r.trace)
  {
    var c := Check(ProcessingKind, options, callbacks);
    if c.verdict.Refused? then Run(ReturnedFalse, [], c.options)
    else
      var o := c.options.value;
      var rest := LoadEvents(o, load, backend);
      CallbackLastAfter(LoadPaymentData(Get(o, "paymentsClient"), PaymentDataRequestFor(o)), rest);
      Run(ReturnedNothing, [LoadPaymentData(Get(o, "paymentsClient"), PaymentDataRequestFor(o))] + rest, c.options)
  }

  /**
   * The `isReadyToPay` handlers: a truthy `result` calls success, a falsy one
   * calls fail; a rejection (or a response without properties, whose read
   * throws) reaches `.catch`, which calls fail.
   */
  function ReadinessEvents(ready: ReadyOutcome): (r: seq<Event>)
    ensures r == [Success] <==> ready.ReadyResolved? && Truthy(Prop(ready.response, "result"))
    ensures r == [Success] || r == [Fail]
  {
    match ready
    case ReadyRejected => [Fail]
    case ReadyResolved(response) => if Truthy(Prop(response, "result")) then [Success] else [Fail]
  }

  /**
   * `showGooglePayButton(options, callbacks)` for the given readiness outcome.
   * Only validation writes the options; a run makes no event or four, and only
   * the last of them is a callback other than setPaymentClient.
   */
  function ButtonRun(options: Option<Props>, callbacks: Value, ready: ReadyOutcome): (r: Run)
    ensures r.options == Check(ButtonKind, options, callbacks).options
    ensures |r.trace| == 0 || |r.trace| == 4
    ensures CallbackLast(r.trace)
  {
    var c := Check(ButtonKind, options, callbacks);
    if c.verdict.Refused? then Run(ReturnedFalse, [], c.options)
    else
      var o := c.options.value;
      Run(ReturnedNothing,
          [NewPaymentsClient(Get(o, "environment")), SetPaymentClient, IsReadyToPay(ReadinessRequestFor(o))] + ReadinessEvents(ready),
          c.options)
  }

  // ---------------------------------------------------------------------------
  // The exported functions: validation changes the caller's options in place

  method GooglePayProcessing(options: JsObject?, callbacks: Value, load: LoadOutcome, backend: BackendOutcome)
    returns (returned: Returned, trace: seq<Event>)
    modifies options
    ensures Run(returned, trace, PropsOf(options)) == ProcessingRun(old(PropsOf(options)), callbacks, load, backend)
  {
    var verdict := CheckParams(ProcessingKind, options, callbacks);
    if verdict.Refused? {
      return ReturnedFalse, [];
    }
    var o := options.props;
    var paymentDataRequest := PaymentDataRequestFor(o);
    trace := [LoadPaymentData(Get(o, "paymentsClient"), paymentDataRequest)];
    trace := trace + LoadEvents(o, load, backend);
    returned := ReturnedNothing;
  }

  method ShowGooglePayButton(options: JsObject?, callbacks: Value, ready: ReadyOutcome)
    returns (returned: Returned, trace: seq<Event>)
    modifies options
    ensures Run(returned, trace, PropsOf(options)) == ButtonRun(old(PropsOf(options)), callbacks, ready)
  {
    var verdict := CheckParams(ButtonKind, options, callbacks);
    if verdict.Refused? {
      return ReturnedFalse, [];
    }
    var o := options.props;
    trace := [NewPaymentsClient(Get(o, "environment")), SetPaymentClient];
    trace := trace + [IsReadyToPay(ReadinessRequestFor(o))];
    trace := trace + ReadinessEvents(ready);
    returned := ReturnedNothing;
  }

  // ---------------------------------------------------------------------------
  // Properties of the two operations

  /**
   * Both operations return `false` exactly when validation refuses, and then
   * make no SDK or backend call and invoke no callback; otherwise they return
   * nothing and their first act is an SDK call.
   */
  lemma RefusalIsSilent(options: Option<Props>, callbacks: Value, load: LoadOutcome, backend: BackendOutcome, ready: ReadyOutcome)
    ensures var r := ProcessingRun(options, callbacks, load, backend);
            && (r.returned == ReturnedFalse <==> Check(ProcessingKind, options, callbacks).verdict.Refused?)
            && (r.returned == ReturnedFalse ==> r.trace == [])
            && (r.returned == ReturnedNothing ==> r.trace != [] && r.trace[0].LoadPaymentData?)
    ensures var r := ButtonRun(options, callbacks, ready);
            && (r.returned == ReturnedFalse <==> Check(ButtonKind, options, callbacks).verdict.Refused?)
            && (r.returned == ReturnedFalse ==> r.trace == [])
            && (r.returned == ReturnedNothing ==> r.trace != [] && r.trace[0].NewPaymentsClient?)
  {
  }

  /**
   * Payment processing invokes at most one callback: success exactly when the
   * token was read and the backend answered with code "0", fail exactly when the
   * token was read and the backend failed or answered otherwise; a rejected or
   * unreadable `loadPaymentData` invokes neither.
   */
  lemma ProcessingCallbacks(options: Option<Props>, callbacks: Value, load: LoadOutcome, backend: BackendOutcome)
    ensures var r := ProcessingRun(options, callbacks, load, backend);
            var accepted := Check(ProcessingKind, options, callbacks).verdict.Accepted?;
            var tokenRead := load.LoadResolved? && load.token.TokenParsed?;
            && Count(r.trace, Success) + Count(r.trace, Fail) <= 1
            && (Count(r.trace, Success) == 1 <==>
                  accepted && tokenRead && backend.Answered? && backend.response.Obj?
                  && IsSuccessCode(Prop(backend.response, "code")))
            && (Count(r.trace, Fail) == 1 <==>
                  accepted && tokenRead
                  && (backend.TransportError?
                      || (!(backend.response.Undefined? || backend.response.Null?) && !IsSuccessCode(Prop(backend.response, "code")))))
            && (accepted && !tokenRead ==> |r.trace| == 1)
  {
    var c := Check(ProcessingKind, options, callbacks);
    if c.verdict.Accepted? {
      var o := c.options.value;
      var head := [LoadPaymentData(Get(o, "paymentsClient"), PaymentDataRequestFor(o))];
      var rest := LoadEvents(o, load, backend);
      AcceptedProcessingTrace(options, callbacks, load, backend);
      CountAppend(head, rest, Success);
      CountAppend(head, rest, Fail);
      LoadEventsCallbacks(o, load, backend);
    }
  }

  /** The callbacks among the events after `loadPaymentData` are those of the backend outcome, if the token was read. */
  lemma LoadEventsCallbacks(o: Props, load: LoadOutcome, backend: BackendOutcome)
    ensures var tokenRead := load.LoadResolved? && load.token.TokenParsed?;
            var rest := LoadEvents(o, load, backend);
            && (!tokenRead ==> rest == [])
            && Count(rest, Success) == (if tokenRead && BackendEvents(backend) == [Success] then 1 else 0)
            && Count(rest, Fail) == (if tokenRead && BackendEvents(backend) == [Fail] then 1 else 0)
  {
    if load.LoadResolved? && load.token.TokenParsed? {
      var post := [PostToBackend(BackendUrl(o), BackendBodyFor(o, load.token.googleToken))];
      var outcome := BackendEvents(backend);
      CountAppend(post, outcome, Success);
      CountAppend(post, outcome, Fail);
      assert post[1..] == [] && [Success][1..] == [] && [Fail][1..] == [];
    }
  }

  /**
   * What payment processing sends, in terms of the caller's options before
   * validation: the payment data request carries the defaulted currency, and
   * the backend receives the token with the public key and the correlation
   * fields exactly as the caller gave them.
   */
  lemma ProcessingSendsCallerOptions(p: Props, callbacks: Value, googleToken: Value, backend: BackendOutcome)
    requires Check(ProcessingKind, Some(p), callbacks).verdict.Accepted?
    ensures var r := ProcessingRun(Some(p), callbacks, LoadResolved(TokenParsed(googleToken)), backend);
            var o := r.options.value;
            && |r.trace| >= 2
            && r.trace[0] == LoadPaymentData(Get(p, "paymentsClient"), PaymentDataRequestFor(o))
            && r.trace[0].request.transactionInfo.currencyCode
               == (if Truthy(Get(p, "currency")) then Get(p, "currency") else DefaultCurrency)
            && r.trace[1] == PostToBackend(BackendUrl(p), BackendBodyFor(p, googleToken))
  {
    ProcessingDefaults(p, callbacks);
    ValidationKeepsForwardedFields(p, callbacks, googleToken);
    var load := LoadResolved(TokenParsed(googleToken));
    AcceptedProcessingTrace(Some(p), callbacks, load, backend);
    var o := Check(ProcessingKind, Some(p), callbacks).options.value;
    var rest := LoadEvents(o, load, backend);
    assert rest[0] == PostToBackend(BackendUrl(p), BackendBodyFor(p, googleToken));
    assert PaymentDataRequestFor(o).transactionInfo.currencyCode == Get(o, "currency");
  }

  /** An accepted processing run: the SDK call on the validated options, then what follows it. */
  lemma AcceptedProcessingTrace(options: Option<Props>, callbacks: Value, load: LoadOutcome, backend: BackendOutcome)
    requires Check(ProcessingKind, options, callbacks).verdict.Accepted?
    ensures var o := Check(ProcessingKind, options, callbacks).options.value;
            var rest := LoadEvents(o, load, backend);
            ProcessingRun(options, callbacks, load, backend).trace
            == [LoadPaymentData(Get(o, "paymentsClient"), PaymentDataRequestFor(o))] + rest
  {
  }

  /** Validation leaves every field the backend request and the SDK call read as the caller gave it. */
  lemma ValidationKeepsForwardedFields(p: Props, callbacks: Value, googleToken: Value)
    ensures var o := Check(ProcessingKind, Some(p), callbacks).options.value;
            && Get(o, "paymentsClient") == Get(p, "paymentsClient")
            && BackendUrl(o) == BackendUrl(p)
            && BackendBodyFor(o, googleToken) == BackendBodyFor(p, googleToken)
  {
    var o := Check(ProcessingKind, Some(p), callbacks).options.value;
    var keys := ["paymentsClient", "request_url", "form_request_id", "googlePayPublicKey", "link_id", "sum", "refill_id", "apikey", "client_id"];
    UnwrittenKeysKept(ProcessingKind, p, callbacks, keys);
    assert Get(o, keys[0]) == Get(p, keys[0]);
    assert Get(o, keys[1]) == Get(p, keys[1]) && Get(o, keys[2]) == Get(p, keys[2]);
    assert Get(o, keys[3]) == Get(p, keys[3]) && Get(o, keys[4]) == Get(p, keys[4]) && Get(o, keys[5]) == Get(p, keys[5]);
    assert Get(o, keys[6]) == Get(p, keys[6]) && Get(o, keys[7]) == Get(p, keys[7]) && Get(o, keys[8]) == Get(p, keys[8]);
  }

  /** The keys in `keys`, none of them defaulted, read the same after validation. */
  lemma UnwrittenKeysKept(kind: string, p: Props, callbacks: Value, keys: seq<string>)
    requires forall i :: 0 <= i < |keys| ==> keys[i] !in DefaultedKeys
    ensures var o := Check(kind, Some(p), callbacks).options.value;
            forall i :: 0 <= i < |keys| ==> Get(o, keys[i]) == Get(p, keys[i])
  {
    forall i | 0 <= i < |keys|
      ensures Get(Check(kind, Some(p), callbacks).options.value, keys[i]) == Get(p, keys[i])
    {
      CheckFrame(kind, p, callbacks, keys[i]);
    }
  }

  /** Counting over the three setup events of button setup followed by the outcome. */
  lemma CountInSetup(setup: seq<Event>, outcome: seq<Event>, e: Event)
    requires |setup| == 3 && setup[1] == SetPaymentClient
    requires !setup[0].SetPaymentClient? && setup[0] != Success && setup[0] != Fail
    requires !setup[2].SetPaymentClient? && setup[2] != Success && setup[2] != Fail
    requires e == SetPaymentClient || e == Success || e == Fail
    ensures Count(setup + outcome, e) == (if e == SetPaymentClient then 1 else 0) + Count(outcome, e)
  {
    assert setup == [setup[0]] + [SetPaymentClient] + [setup[2]];
    CountAppend([setup[0]] + [SetPaymentClient], [setup[2]], e);
    CountAppend([setup[0]], [SetPaymentClient], e);
    CountAppend(setup, outcome, e);
    assert [setup[0]][1..] == [] && [SetPaymentClient][1..] == [] && [setup[2]][1..] == [];
  }

  /**
   * Button setup, once validation passes: a client is created for the
   * (defaulted) environment and handed to setPaymentClient, and then the
   * readiness check asks about the (defaulted) base method alone.
   */
  lemma ButtonSetupEvents(p: Props, callbacks: Value, ready: ReadyOutcome)
    requires Check(ButtonKind, Some(p), callbacks).verdict.Accepted?
    ensures var r := ButtonRun(Some(p), callbacks, ready);
            && |r.trace| == 4
            && r.trace[0] == NewPaymentsClient(if Truthy(Get(p, "environment")) then Get(p, "environment") else DefaultEnvironment)
            && r.trace[1] == SetPaymentClient
            && r.trace[2] == IsReadyToPay(ReadinessRequest(2, 0, [if Truthy(Get(p, BaseMethodKey)) then Get(p, BaseMethodKey)
                                                                   else DefaultBaseCardPaymentMethod()]))
  {
    ButtonDefaults(p, callbacks);
    BaseMethodDefaulted(ButtonKind, p, callbacks);
    AcceptedButtonTrace(Some(p), callbacks, ready);
  }

  /**
   * Button setup, once validation passes, calls setPaymentClient exactly once
   * and then exactly one of success or fail, success exactly when the
   * readiness response has a truthy `result`.
   */
  lemma ButtonCallbacks(p: Props, callbacks: Value, ready: ReadyOutcome)
    requires Check(ButtonKind, Some(p), callbacks).verdict.Accepted?
    ensures var r := ButtonRun(Some(p), callbacks, ready);
            && Count(r.trace, SetPaymentClient) == 1
            && Count(r.trace, Success) + Count(r.trace, Fail) == 1
            && (Count(r.trace, Success) == 1 <==> ready.ReadyResolved? && Truthy(Prop(ready.response, "result")))
  {
    var o := Check(ButtonKind, Some(p), callbacks).options.value;
    var setup := [NewPaymentsClient(Get(o, "environment")), SetPaymentClient, IsReadyToPay(ReadinessRequestFor(o))];
    var outcome := ReadinessEvents(ready);
    AcceptedButtonTrace(Some(p), callbacks, ready);
    CountInSetup(setup, outcome, SetPaymentClient);
    CountInSetup(setup, outcome, Success);
    CountInSetup(setup, outcome, Fail);
  }

  /** An accepted button run: the three setup events on the validated options, then the readiness outcome. */
  lemma AcceptedButtonTrace(options: Option<Props>, callbacks: Value, ready: ReadyOutcome)
    requires Check(ButtonKind, options, callbacks).verdict.Accepted?
    ensures var o := Check(ButtonKind, options, callbacks).options.value;
            ButtonRun(options, callbacks, ready).trace
            == [NewPaymentsClient(Get(o, "environment")), SetPaymentClient, IsReadyToPay(ReadinessRequestFor(o))]
               + ReadinessEvents(ready)
  {
  }
}
