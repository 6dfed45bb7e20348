# PayPal Express Checkout NVP adapter, modelled in Dafny

This project models the PayPal Express Checkout gateway of the PHP Merchant
library (`lib/merchant/billing/gateways/PaypalExpress.php`). The gateway talks
to PayPal's name/value-pair (NVP) API in three steps:

1. `setup_authorize` / `setup_purchase` send `SetExpressCheckout`.
2. `get_details_for` stores the session (`token`, `payer_id`) and sends
   `GetExpressCheckoutDetails`.
3. `authorize` / `purchase` send `DoExpressCheckoutPayment`. Each option the
   call leaves unset is taken from the session.

Every reply is classified into a uniform response: the success flag, the
message, the authorization reference, the fraud-review flag and the AVS/CVV
results.

The project has three files:

- `nvp.dfy` (module `Nvp`): name/value records, the `Option`/`Result`/`Error`
  types, and `Missing`, the required-option check the adapter runs before it
  builds a request.
- `paypal_common.dfy` (module `PaypalCommon`): the reply classifier as pure
  functions.
  - `FirstPresent` is the reference definition of "first present field of an
    ordered list".
  - `AuthorizationFrom` and `MessageFrom` are proved equal to it.
  - `Respond` is the response that `commit` builds.
- `paypal_express.dfy` (module `PaypalExpressGateway`): the stateful gateway.
  - Class `PaypalExpress` keeps the fields `postParams`, `token` and `payerId`,
    plus a ghost trace `sent` of the requests committed so far.
  - Request fields are the datatype `Field`; `WireName` gives each field's
    upper-case name on the wire, and `WireNameInjective` proves distinct fields
    have distinct names.
  - Each mutating method is proved against a pure step function (`SetupRequest`,
    `DoActionRequest` or `DetailsRequest`). The step gives the merged
    parameters, or the missing-option error raised before anything is merged
    or sent.
  - The instance invariant `Valid` says two things: the endpoint matches the
    mode, and the credential block the constructor wrote is still in the
    parameters with the same values.

One transport round trip is a parameter of type `Exchange`, a function from
the endpoint and the request to the parsed reply. It stands for URL-encoding,
the HTTPS post and `parse_str` together. `urldecode` is also a parameter.

These behaviours of the code are worth noting:

- `message_from` returns the ACK when there is no long message. When neither
  field is present the message is absent (`None`).
- `post_params` accumulates across calls. A payment request therefore still
  carries the `RETURNURL`/`CANCELURL` of an earlier setup, and a details
  request still carries the setup's `PAYMENTACTION` and `AMT`.
  `SetupThenDetails` and `SessionPaymentKeepsEarlierFields` state this.
- The docblock of `setup_authorize`/`setup_purchase` documents a `currency`
  option, but `setup` never reads it. `CURRENCYCODE` keeps the constructor's
  value, which `SetupRequest` states: `CurrencyCode` is not among the fields
  it writes, so `Overwrites` keeps it.
- The redirect address is the sandbox address whatever the mode, so
  `url_for_token` sends the buyer to the sandbox even from a live instance.
  `UrlForToken` keeps that fixed prefix.

## Model

| member | source | states |
|---|---|---|
| Nvp.Missing | lib/merchant/billing/gateways/PaypalExpress.php:104 | The names reported missing are exactly the required names the options do not set. The result is empty iff every required name is set. |
| PaypalCommon.FirstPresent | lib/merchant/billing/gateways/PaypalExpress.php:190-198 | Priority fallback over an ordered key list. The result is absent iff none of the keys is in the reply. |
| PaypalCommon.FirstPresentAt | lib/merchant/billing/gateways/PaypalExpress.php:190-198 | If the key at position i is present and no earlier key is, the fallback yields that key's value. |
| PaypalCommon.FirstPresentReadsOnlyKeys | lib/merchant/billing/gateways/PaypalExpress.php:190-198 | Two replies that agree on the listed keys give the same fallback result. |
| PaypalCommon.FirstPresentIgnoresLater | lib/merchant/billing/gateways/PaypalExpress.php:190-198 | Once the key at position i is present, setting any field that is not among the keys up to i leaves the result unchanged. |
| PaypalCommon.Successful | lib/merchant/billing/gateways/PaypalExpress.php:200-202 | Success iff ACK is present and equals "Success" or "SuccessWithWarning". A missing ACK or any other value is a failure. |
| PaypalCommon.AuthorizationFrom | lib/merchant/billing/gateways/PaypalExpress.php:190-198 | The reference is TRANSACTIONID, else AUTHORIZATIONID, else REFUNDTRANSACTIONID (equal to FirstPresent over that list). It is absent iff none of the three is present. |
| PaypalCommon.AuthorizationIgnoresLowerPriority | lib/merchant/billing/gateways/PaypalExpress.php:190-198 | A present higher-priority reference wins, whatever a lower-priority or unrelated field is set to. |
| PaypalCommon.FraudReview | lib/merchant/billing/gateways/PaypalExpress.php:184-188 | Flagged iff L_ERRORCODE0 is present and equals "11610". Never flagged when the code is absent. |
| PaypalCommon.MessageFrom | lib/merchant/billing/gateways/PaypalExpress.php:204-206 | L_LONGMESSAGE0 when present, otherwise ACK (FirstPresent over that list). Absent iff both are absent. |
| PaypalCommon.RespondClassifies | lib/merchant/billing/gateways/PaypalExpress.php:171-182 | The response carries the raw reply, the success set, the message fallback, the mode as the test flag, the authorization priority and the fraud flag. The AVS and CVV results are present iff AVSCODE and CVV2CODE are, with their values. |
| PaypalCommon.ClassificationReadsOnlyClassifiedKeys | lib/merchant/billing/gateways/PaypalExpress.php:171-182 | The success flag, the message and the options depend only on the eight classified reply fields and the mode. |
| PaypalExpressGateway.SetupRequest | lib/merchant/billing/gateways/PaypalExpress.php:102-112 | Fails iff return_url or cancel_return_url is unset, naming exactly the unset ones. On success it merges METHOD=SetExpressCheckout, the action, AMT, RETURNURL and CANCELURL over the earlier parameters and keeps every other field. |
| PaypalExpressGateway.WithSession | lib/merchant/billing/gateways/PaypalExpress.php:119-121 | token and payer_id come from the call's options when set, else from the session. Every other option is unchanged. |
| PaypalExpressGateway.DoActionRequest | lib/merchant/billing/gateways/PaypalExpress.php:119-131 | Fails iff the token or the payer is in neither the options nor the session, naming exactly those missing. On success it merges METHOD=DoExpressCheckoutPayment, the action, AMT, TOKEN and PAYERID (option first, session second) and keeps every other field. |
| PaypalExpressGateway.DetailsRequest | lib/merchant/billing/gateways/PaypalExpress.php:143-152 | Merges METHOD=GetExpressCheckoutDetails and the token as received, keeping every other field. |
| PaypalExpressGateway.PaypalExpress.MergeKeepsCredentials | lib/merchant/billing/gateways/PaypalExpress.php:61-66 | A merge that writes no credential field keeps the credential block and its values. |
| PaypalExpressGateway.PaypalExpress.constructor | lib/merchant/billing/gateways/PaypalExpress.php:49-67 | Version defaults to 59.0 and currency to EUR unless given. The endpoint is the sandbox in test mode, else live. The parameters are exactly USER, PWD, VERSION, SIGNATURE and CURRENCYCODE with those values. The session is empty. |
| PaypalExpressGateway.PaypalExpress.Commit | lib/merchant/billing/gateways/PaypalExpress.php:171-182 | Sends the request once to the instance's endpoint. The result is the classification of the reply in the instance's mode. |
| PaypalExpressGateway.PaypalExpress.Setup | lib/merchant/billing/gateways/PaypalExpress.php:102-117 | Keeps the invariant. On a missing option it returns the error and sends and changes nothing. Otherwise the parameters become SetupRequest's merge, which is sent once, and the reply is classified. |
| PaypalExpressGateway.PaypalExpress.SetupAuthorize | lib/merchant/billing/gateways/PaypalExpress.php:94-96 | Setup with the action "Authorization". |
| PaypalExpressGateway.PaypalExpress.SetupPurchase | lib/merchant/billing/gateways/PaypalExpress.php:98-100 | Setup with the action "Sale". |
| PaypalExpressGateway.PaypalExpress.FillFromSession | lib/merchant/billing/gateways/PaypalExpress.php:119-121 | The in-place rewrite of the options gives exactly the fallback WithSession defines. |
| PaypalExpressGateway.PaypalExpress.DoAction | lib/merchant/billing/gateways/PaypalExpress.php:119-137 | Keeps the invariant. If the token or the payer is missing from both the options and the session, it returns the error and sends and changes nothing. Otherwise the parameters become DoActionRequest's merge, which is sent once, and the reply is classified. |
| PaypalExpressGateway.PaypalExpress.Authorize | lib/merchant/billing/gateways/PaypalExpress.php:77-79 | DoAction with the action "Authorization". |
| PaypalExpressGateway.PaypalExpress.Purchase | lib/merchant/billing/gateways/PaypalExpress.php:81-83 | DoAction with the action "Sale". |
| PaypalExpressGateway.PaypalExpress.GetDetailsFor | lib/merchant/billing/gateways/PaypalExpress.php:143-157 | Stores the URL-decoded token and payer as the session. It sends the request with the token as received, merged over the earlier parameters. It keeps the invariant. |
| PaypalExpressGateway.PaypalExpress.UrlForToken | lib/merchant/billing/gateways/PaypalExpress.php:139-141 | The redirect address is the sandbox checkout prefix followed by the token verbatim, nothing more. |
| PaypalExpressGateway.PaypalExpress.UrlForTokenInjective | lib/merchant/billing/gateways/PaypalExpress.php:139-141 | Distinct tokens give distinct redirect addresses. |
| PaypalExpressGateway.Connect | lib/merchant/billing/gateways/PaypalExpress.php:49-67 | Building the gateway fails iff login, password or signature is unset, naming the unset ones. On success the instance is new and valid, with the endpoint for its mode. Version defaults to 59.0 and currency to EUR unless given. The parameters are exactly the credential block with those values, and the session is empty. |
| PaypalExpressGateway.WireNameInjective | lib/merchant/billing/gateways/PaypalExpress.php:61-66 | Distinct request fields have distinct upper-case wire names. So merging requests keyed by field agrees with `array_merge` over the wire names. |
| PaypalExpressGateway.SetupThenDetails | lib/merchant/billing/gateways/PaypalExpress.php:102-152 | A setup with both addresses succeeds. The details request that follows carries METHOD=GetExpressCheckoutDetails and the raw token, and still carries the setup's PAYMENTACTION, AMT, RETURNURL and CANCELURL. Every earlier field neither step writes keeps its value. |
| PaypalExpressGateway.SessionPaymentKeepsEarlierFields | lib/merchant/billing/gateways/PaypalExpress.php:119-131 | With a filled session, a payment whose options name neither token nor payer succeeds with the session's values. Every earlier field it does not write, such as a setup's RETURNURL and CANCELURL, survives unchanged. |

## Left out

- Transport: `ssl_post`, `urlize` and `parse_str` are folded into the `Exchange` parameter. Transport errors and exceptions are not modelled. The order of fields on the wire is not modelled, because a map has no order.
- `urldecode` is a parameter (`urlDecode`), not a model of percent-decoding.
- `amount()` and `number_format($amount, 2)`: amounts are formatted strings chosen by the caller. Number formatting, which involves floating point, is not modelled.
- Logging (`Merchant_Logger`) and the error-log diagnostic that `parse` writes when ACK is "Failure" have no observable effect on the result and are left out.
- `required_options` belongs to the base gateway class, which is not part of this model. It is modelled as `Missing`, which treats an unset or null entry as missing and reports every missing name. The exception's message text is not modelled.
- `mode()` / `is_test()` belong to the base gateway class, which is not part of this model. They are modelled as the boolean `test`, fixed at construction.
- PHP loose comparison in `in_array` (`successful`) is modelled as string equality. Every value compared there is a string from the parsed reply, and the success codes are not numeric strings, so loose and exact comparison agree.
- PaypalCommon.FraudReview: compares `L_ERRORCODE0` with "11610" as exact strings. PHP's `==` compares two numeric strings as numbers, so the source also flags an error code such as "11610.0", "011610" or " 11610", which the model does not.
- `build_response` and `Merchant_Billing_PaypalExpressResponse` are not part of this model. The response is the plain datatype `Response` holding the four constructor arguments.
- The metadata properties (`supported_countries`, `homepage_url`, `display_name`) and the unused constant `PENDING` are left out. They play no part in any operation. `FAILURE` is used only by `parse` to decide whether to write the error log, which is left out with the logging.
- PaypalExpressGateway.PaypalExpress.constructor: requires the three credential keys. The throwing path of the PHP constructor is modelled separately by `Connect`.
