# Google Pay glue (GoogePay.js) in Dafny

A model of the two exported functions of `GoogePay.js` and of the validator
they share:

- `checkParams(type, options, callbacks)` checks the options and the callbacks
  in a fixed order. It writes defaults into the caller's options object: the
  base card payment method, the currency `"RUB"` for payment processing, and the
  environment `"PRODUCTION"` for button setup. It answers `false` or
  `{options}`.
- `showGooglePayButton(options, callbacks)` creates a Google Pay client and
  hands it to `setPaymentClient`. It then asks `isReadyToPay` and calls
  `success` or `fail`.
- `GooglePayProcessing(options, callbacks)` builds a `PaymentDataRequest` and
  calls `loadPaymentData`. It posts the token to the merchant backend. It calls
  `success` when the backend's code loosely equals `"0"`, and `fail` on another
  code or an HTTP error. It calls neither when `loadPaymentData` rejects, the
  token cannot be read, or the response is `null`.

Modules:

- `JsValues` (`js_values.dfy`): JavaScript values. It covers truthiness,
  `typeof … === "function"`, property reads, ToString (`"" + v`, with integer
  decimal formatting and array join) and the loose comparison `v == "0"`. The
  caller's options object is the class `JsObject`, whose `props` map is
  updated in place.
- `Requests` (`requests.dfy`): the default card method, the tokenization
  descriptor, the `Object.assign` merge, `PaymentDataRequest`,
  `IsReadyToPayRequest`, and the backend URL and body.
- `ParamCheck` (`check_params.dfy`): `Check` is the validator as a function
  from the options before the call to the verdict and the options after it.
  `CheckParams` is the in-place method, proved to agree with `Check`.
- `Flows` (`flows.dfy`): the two exported functions. The Google Pay SDK and
  the backend are parameters that give their outcomes. What the code does is
  a trace of events: the SDK and backend calls, and the `setPaymentClient`,
  `success` and `fail` callbacks. `ProcessingRun` and `ButtonRun` specify the
  two methods.

Behaviour of the code worth noting:

- After validation both exported functions return nothing. The `return true`
  at GoogePay.js:227 only resolves the inner promise of the readiness check.
- For button setup, the environment default is written before the
  `setPaymentClient` check. A refused call can therefore still have changed
  the options.
- For processing, the base-method default is written before the
  `paymentsClient` check.
- A backend response that is `null` makes the success handler throw before
  either callback. It is not reported as a failure.

## Model

| member | source | states |
|---|---|---|
| `Requests.DefaultBaseCardPaymentMethod` | GoogePay.js:21-29 | The default is truthy and has exactly the keys type and parameters; its parameters have exactly allowedAuthMethods and allowedCardNetworks. Its type is "CARD". Its auth methods are PAN_ONLY and CRYPTOGRAM_3DS. Its networks are AMEX, DISCOVER, JCB, MASTERCARD and VISA. |
| `Requests.TokenizationSpecification` | GoogePay.js:93-111 | The token descriptor has exactly the keys type and parameters, and its parameters have exactly protocolVersion and publicKey. Its type is DIRECT, its protocolVersion is ECv1 and its publicKey is the given key. |
| `Requests.CardPaymentMethod` | GoogePay.js:116-122 | Object.assign gives the base method's own keys plus tokenizationSpecification. The added key holds the descriptor and overrides a base key of the same name. Every other base key keeps its value. |
| `Requests.PaymentDataRequestFor` | GoogePay.js:124-149 | apiVersion is 2 and apiVersionMinor is 0. The only allowed method is the base method merged with the DIRECT descriptor for googlePayPublicKey. merchantInfo comes from merc_id and merc_name. currencyCode is the currency option, totalPriceStatus is FINAL and totalPrice is the text of sum. |
| `Requests.AllowedMethodCarriesPublicKey` | GoogePay.js:106-127 | The single allowed method has exactly the base method's keys plus tokenizationSpecification. That descriptor has exactly type DIRECT and parameters {protocolVersion: "ECv1", publicKey: googlePayPublicKey}. Every other property of the base method is kept. |
| `Requests.TotalPriceIsTheSum` | GoogePay.js:144-148 | totalPrice is the text of sum. A string sum is passed through unchanged. An integer sum reads back from totalPrice. |
| `Requests.TotalPriceDistinguishesSums` | GoogePay.js:147 | Two different integer sums never produce the same totalPrice. |
| `JsValues.NumberStringRoundTrip` | GoogePay.js:147 | The decimal text of an integer, as `"" + n` produces it, parses back to the same integer. |
| `JsValues.Digits` | GoogePay.js:147 | The decimal digits of a natural number are non-empty and all digits. There is no leading zero, and the text is "0" exactly for zero. |
| `JsValues.LooselyEqualsZeroText` | GoogePay.js:179 | `v == "0"` holds exactly when the text of v is "0", or v is false (compared as the number 0). So undefined, null, objects and functions never match, and an array matches when its join is "0". |
| `Requests.ReadinessRequestFor` | GoogePay.js:218-222 | The readiness request has apiVersion 2 and apiVersionMinor 0. Its only allowed method is the (defaulted) base method, without tokenization. |
| `Requests.BackendUrl` | GoogePay.js:165 | For a string request_url, the URL starts with it, followed by "?form_request_id=". Then comes the id: a string id as is, and an integer id in a form that reads back. |
| `Requests.BackendBodyFor` | GoogePay.js:168-176 | The body carries the token and the public key as pub_key. link_id, sum, refill_id, apikey and client_id are forwarded unchanged. |
| `ParamCheck.CheckParams` | GoogePay.js:31-81 | The in-place validator returns the verdict and leaves the options object exactly as the `Check` specification gives them. |
| `ParamCheck.EarlyRefusalsInOrder` | GoogePay.js:34-49 | The refusals, in order: missing options, missing callbacks, fail not a function, success not a function. Each is refused exactly under its condition, and these refusals leave the options untouched. |
| `ParamCheck.BaseMethodDefaulted` | GoogePay.js:50-53 | Once the common checks pass, a falsy base method becomes the default and a truthy one is kept, whatever the final verdict. |
| `ParamCheck.ProcessingDefaults` | GoogePay.js:55-66 | Processing is accepted exactly when paymentsClient is truthy. If it is not, only the base method was written. If it is, a falsy currency becomes "RUB" and a truthy one is kept. The environment is never written. |
| `ParamCheck.ButtonDefaults` | GoogePay.js:67-76 | Button setup is accepted exactly when setPaymentClient is a function. The environment default ("PRODUCTION" when falsy) and the base default are written either way. The currency and paymentsClient are untouched. |
| `ParamCheck.OtherKindDefaults` | GoogePay.js:50-80 | Any other type string is accepted once the common checks pass, and gets only the base-method default. |
| `ParamCheck.CheckFrame` | GoogePay.js:51-71 | Keys other than the base method, currency and environment are never changed, and no key is added beyond those three. A key whose value was truthy keeps it. |
| `ParamCheck.CheckIdempotent` | GoogePay.js:51-80 | Validating options that the validator already accepted accepts them again and writes nothing. |
| `Flows.BackendEvents` | GoogePay.js:178-189 | success fires exactly when the response code is neither undefined nor null and loosely equals "0". fail fires on any other code or on a transport error. A null response fires neither. |
| `Flows.ReadinessEvents` | GoogePay.js:224-236 | Exactly one of success or fail fires. success fires exactly when the readiness response has a truthy result. A rejection fires fail. |
| `Flows.GooglePayProcessing` | GoogePay.js:83-198 | The exported processing function gives the return value, event trace and final options that `ProcessingRun` specifies. |
| `Flows.ShowGooglePayButton` | GoogePay.js:206-237 | The exported button function gives the return value, event trace and final options that `ButtonRun` specifies. |
| `Flows.RefusalIsSilent` | GoogePay.js:86-91 | Both functions return false exactly when validation refuses. They then make no SDK or backend call and invoke no callback. Otherwise they return nothing, and their first act is an SDK call (lines 208-213 are the same for button setup). |
| `Flows.ProcessingCallbacks` | GoogePay.js:159-197 | At most one callback fires. success fires exactly for a read token and a backend code "0". fail fires exactly for a read token and a failed or other answer. A rejected or unreadable loadPaymentData fires nothing. |
| `Flows.ProcessingSendsCallerOptions` | GoogePay.js:155-176 | loadPaymentData is called on the caller's paymentsClient, with the currency defaulted to "RUB". The backend gets the URL and body built from the caller's own fields, unchanged by validation. |
| `Flows.ValidationKeepsForwardedFields` | GoogePay.js:164-176 | Validation leaves every field read for the backend URL and body unchanged, and the paymentsClient used for loadPaymentData too. The backend gets the values the caller passed in. |
| `Flows.ButtonSetupEvents` | GoogePay.js:215-223 | A client is created for the (defaulted) environment and handed to setPaymentClient. Then isReadyToPay gets apiVersion 2, minor 0 and the (defaulted) base method alone. Four events in all. |
| `Flows.ButtonCallbacks` | GoogePay.js:217-236 | setPaymentClient is called exactly once. Then exactly one of success or fail follows: success exactly for a truthy result. |
| `JsValues.Truthy` | GoogePay.js:34-71 | `if (!x)` rejects exactly undefined, null, false, 0 and the empty string. |
| `JsValues.IsFunction` | GoogePay.js:42-49 | A value that passes `typeof v === "function"` is truthy, so the `!callbacks.fail ||` half of the tests at lines 42, 46 and 72 adds nothing. |
| `JsValues.NumberString` | GoogePay.js:147 | The text of an integer: canonical decimal digits, with a minus sign exactly for negatives and no "-0". It is "0" exactly for zero. |
| `JsValues.JsString` | GoogePay.js:147 | `"" + v` leaves a string unchanged, and the text of an integer reads back to it. |
| `Flows.IsSuccessCode` | GoogePay.js:179 | A code passes `code != undefined && code == "0"` exactly when its text is "0" or it is false. The undefined test adds nothing. |
| `ParamCheck.Check` | GoogePay.js:31-81 | The options stay present or absent. An accepted call passed the four common checks and has a truthy base method. For processing it also has a truthy paymentsClient and currency; for button setup a truthy environment and a setPaymentClient function. Each of the two late refusals happens only for its own operation. |
| `Flows.LoadEvents` | GoogePay.js:159-197 | Events follow loadPaymentData exactly when the token was read. The first is the POST of the URL and body built from the options and the token. At most one more event follows, and it is a callback. |
| `Flows.ProcessingRun` | GoogePay.js:83-198 | Only validation writes the options. There are at most three events, and a callback can only be the last of them. |
| `Flows.ButtonRun` | GoogePay.js:206-237 | Only validation writes the options. A run has no event or four, and success or fail can only be the last of them. |

## Left out

- The Google Pay SDK (`PaymentsClient`, `isReadyToPay`, `loadPaymentData`) is a foreign library. Its answers are the parameters `ReadyOutcome` and `LoadOutcome`, and the client it creates is not modelled beyond the environment it is given.
- `JSON.parse` of the token and the property path to it are folded into `TokenText`: a token that cannot be read or parsed is `TokenUnreadable`, which reaches the `.catch`.
- The jQuery `$.ajax` POST and `JSON.stringify` are I/O and library serialisation. The body is the record `BackendBody`, and the answer is `Answered(response)` or `TransportError`. A JSON parse error of the response counts as a transport error, as jQuery reports it through the `error` handler.
- `console.log` and `console.error` diagnostics are left out. `Reason` records which check refused, but not the text of the log line.
- Promise scheduling is left out: the continuations are sequential, so the trace simply concatenates them.
- The continuations read `options.request_url`, `form_request_id`, `googlePayPublicKey`, `link_id`, `sum`, `refill_id`, `apikey`, `client_id` (GoogePay.js:165-175) and `callbacks.success` / `callbacks.fail` (GoogePay.js:180-188, 226-235) only when the promises settle. The model takes them to see the options and callbacks as they were right after validation. A caller that changes either object while the wallet sheet is open is not modelled.
- A `paymentsClient` without a callable `loadPaymentData` (say `paymentsClient: true`, which validation accepts), a missing `google` or `$` global, and an SDK call that throws synchronously are not modelled. Every accepted call is taken to reach the SDK and return nothing, and a readable token is taken to reach the POST.
- Exceptions thrown by the caller's own callbacks are left out. For example, a throwing `success` inside `.then` would reach `.catch` and fire `fail` as well.
- Numbers are integers. Fractional amounts, NaN, -0 and the exponent form JavaScript uses from 10^21 up are not modelled.
- The text a function value converts to (its source) is a fixed placeholder.
- `Requests.CardPaymentMethod`: when the base method is a string or an array, `Object.assign` would copy its indexed characters or items. The model copies properties of objects only.
- A truthy options value that is not an object (a string, say) is not modelled. The module code runs in strict mode, where writing a default to it would throw. In the model, options is an object or absent, and absent stands for every falsy value.
- `JsValues.Prop` gives `undefined` for any property of a function or a primitive. Properties that callback functions might carry are not modelled.
