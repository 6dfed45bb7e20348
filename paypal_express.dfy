/** The PayPal Express Checkout gateway: a stateful builder of NVP requests.
    An instance holds the parameters of the last request it sent (`post_params`),
    seeded with the credential block, and the session pair (`token`, `payer_id`)
    captured by the details fetch. Every operation merges its own fields over
    the parameters left by earlier calls, commits the result and classifies the
    reply with the functions of `PaypalCommon`. */
module PaypalExpressGateway {
  import opened Nvp
  import opened PaypalCommon

  const TestEndpoint: string := "https://api-3t.sandbox.paypal.com/nvp"
  const LiveEndpoint: string := "https://api-3t.paypal.com/nvp"
  const DefaultVersion: string := "59.0"
  const DefaultCurrency: string := "EUR"

  /** Options the constructor, `setup` and `do_action` require, in the order they name them. */
  const CredentialOptions: seq<string> := ["login", "password", "signature"]
  const SetupOptions: seq<string> := ["return_url", "cancel_return_url"]
  const SessionOptions: seq<string> := ["token", "payer_id"]

  /** The request fields the adapter writes. The provider defines a fixed set
      of upper-case names; `WireName` gives each one's name on the wire. */
  datatype Field =
    | User | Pwd | Version | Signature | CurrencyCode
    | Method | PaymentAction | Amt | ReturnUrl | CancelUrl | Token | PayerId

  function WireName(f: Field): string
  {
    match f
    case User => "USER"
    case Pwd => "PWD"
    case Version => "VERSION"
    case Signature => "SIGNATURE"
    case CurrencyCode => "CURRENCYCODE"
    case Method => "METHOD"
    case PaymentAction => "PAYMENTACTION"
    case Amt => "AMT"
    case ReturnUrl => "RETURNURL"
    case CancelUrl => "CANCELURL"
    case Token => "TOKEN"
    case PayerId => "PAYERID"
  }

  /** Distinct fields have distinct wire names, so merging requests keyed by
      `Field` agrees with merging the same requests keyed by their wire names. */
  lemma WireNameInjective(f: Field, g: Field)
    ensures WireName(f) == WireName(g) <==> f == g
  {
  }

  /** The request parameters (`post_params`): field to value. */
  type Request = map<Field, string>

  /** The request fields each operation writes. */
  const AuthFields: set<Field> := {User, Pwd, Version, Signature, CurrencyCode}
  const SetupFields: set<Field> := {Method, PaymentAction, Amt, ReturnUrl, CancelUrl}
  const PaymentFields: set<Field> := {Method, PaymentAction, Amt, Token, PayerId}
  const DetailsFields: set<Field> := {Method, Token}

  /** One round trip to the provider: the request is URL-encoded under the
      fields' wire names, posted to the endpoint, and the reply body is parsed
      back into name/value fields. */
  type Exchange = (string, Request) -> Fields

  /** `after` is `array_merge(before, new)` for some `new` whose keys are
      `written`: the written fields are present and every other field of
      `before` keeps its value. */
  ghost predicate Overwrites(before: Request, written: set<Field>, after: Request)
  {
    && after.Keys == before.Keys + written
    && forall f :: f in before && f !in written ==> after[f] == before[f]
  }

  /** The credential block the constructor seeds the request parameters with. */
  function AuthBlock(login: string, password: string, version: string, signature: string, currency: string): Request
  {
    map[User := login, Pwd := password, Version := version,
        Signature := signature, CurrencyCode := currency]
  }

  /** `setup`: the parameters after merging in a SetExpressCheckout request, or
      the missing-option error raised before anything is merged. */
  function SetupRequest(params: Request, amount: string, action: string, options: Fields): (next: Result<Request, Error>)
    ensures next.Failure? <==> "return_url" !in options || "cancel_return_url" !in options
    ensures next.Failure? ==>
      && next.error.names != []
      && forall k :: k in next.error.names <==> k in SetupOptions && k !in options
    ensures next.Success? ==> Overwrites(params, SetupFields, next.value)
    ensures next.Success? ==>
      && next.value[Method] == "SetExpressCheckout"
      && next.value[PaymentAction] == action
      && next.value[Amt] == amount
      && next.value[ReturnUrl] == options["return_url"]
      && next.value[CancelUrl] == options["cancel_return_url"]
  {
    if "return_url" !in options || "cancel_return_url" !in options then
      Failure(MissingParameter(Missing(SetupOptions, options)))
    else
      Success(params + map[
        Method := "SetExpressCheckout",
        PaymentAction := action,
        Amt := amount,
        ReturnUrl := options["return_url"],
        CancelUrl := options["cancel_return_url"]])
  }

  /** `do_action`'s fallback: the call's own `token` and `payer_id` where it
      sets them, otherwise the values held from the details fetch. */
  function WithSession(options: Fields, token: Option<string>, payerId: Option<string>): (resolved: Fields)
    ensures Get(resolved, "token") == if "token" in options then Some(options["token"]) else token
    ensures Get(resolved, "payer_id") == if "payer_id" in options then Some(options["payer_id"]) else payerId
    ensures forall k :: k != "token" && k != "payer_id" ==> Get(resolved, k) == Get(options, k)
  {
    var withToken := if "token" !in options && token.Some? then options["token" := token.value] else options;
    if "payer_id" !in withToken && payerId.Some? then withToken["payer_id" := payerId.value] else withToken
  }

  /** `do_action`: the parameters after merging in a DoExpressCheckoutPayment
      request, or the missing-option error when the token or the payer is
      found neither in the call's options nor in the session. */
  function DoActionRequest(params: Request, amount: string, action: string, options: Fields,
                           token: Option<string>, payerId: Option<string>): (next: Result<Request, Error>)
    ensures next.Failure? <==> ("token" !in options && token.None?) || ("payer_id" !in options && payerId.None?)
    ensures next.Failure? ==>
      && next.error.names != []
      && forall k :: k in next.error.names <==> k in SessionOptions && k !in WithSession(options, token, payerId)
    ensures next.Success? ==> Overwrites(params, PaymentFields, next.value)
    ensures next.Success? ==>
      && next.value[Method] == "DoExpressCheckoutPayment"
      && next.value[PaymentAction] == action
      && next.value[Amt] == amount
      && next.value[Token] == (if "token" in options then options["token"] else token.value)
      && next.value[PayerId] == (if "payer_id" in options then options["payer_id"] else payerId.value)
  {
    var resolved := WithSession(options, token, payerId);
    assert Get(resolved, "token").Some? <==> "token" in resolved;
    assert Get(resolved, "payer_id").Some? <==> "payer_id" in resolved;
    if "token" !in resolved || "payer_id" !in resolved then
      Failure(MissingParameter(Missing(SessionOptions, resolved)))
    else
      Success(params + map[
        Method := "DoExpressCheckoutPayment",
        PaymentAction := action,
        Amt := amount,
        Token := resolved["token"],
        PayerId := resolved["payer_id"]])
  }

  /** `get_details_for`: the parameters after merging in a
      GetExpressCheckoutDetails request keyed by the token as received. */
  function DetailsRequest(params: Request, rawToken: string): (next: Request)
    ensures Overwrites(params, DetailsFields, next)
    ensures next[Method] == "GetExpressCheckoutDetails" && next[Token] == rawToken
  {
    params + map[Method := "GetExpressCheckoutDetails", Token := rawToken]
  }

  class PaypalExpress {
    /** Where the buyer is sent to approve a payment; the token is appended. */
    const redirectUrl: string := "https://www.sandbox.paypal.com/cgi-bin/webscr?cmd=_express-checkout&token="

    /** The mode the instance was built for: the sandbox when true. */
    const test: bool
    const url: string
    const options: Fields
    const version: string
    const defaultCurrency: string

    var postParams: Request
    var token: Option<string>
    var payerId: Option<string>

    /** Every request committed so far, oldest first. */
    ghost var sent: seq<Request>

    /** `params` still hold the credential block with the values the
        constructor gave it. */
    ghost predicate KeepsCredentials(params: Request)
    {
      && "login" in options && "password" in options && "signature" in options
      && User in params && params[User] == options["login"]
      && Pwd in params && params[Pwd] == options["password"]
      && Version in params && params[Version] == version
      && Signature in params && params[Signature] == options["signature"]
      && CurrencyCode in params && params[CurrencyCode] == defaultCurrency
    }

    /** The instance invariant: the endpoint matches the mode, and the
        request parameters still hold the credential block unchanged. */
    ghost predicate Valid()
      reads this
    {
      && url == (if test then TestEndpoint else LiveEndpoint)
      && KeepsCredentials(postParams)
    }

    /** No operation writes a credential field, so merging keeps the block. */
    lemma MergeKeepsCredentials(params: Request, written: Request)
      requires KeepsCredentials(params)
      requires User !in written && Pwd !in written && Version !in written
      requires Signature !in written && CurrencyCode !in written
      ensures KeepsCredentials(params + written)
    {
    }

    /** After an operation: either the step failed and nothing was merged or
        sent, or the merged parameters were sent as one request and the
        result is the classification of the provider's reply to it. */
    ghost predicate Committed(before: Request, sentBefore: seq<Request>, step: Result<Request, Error>, exchange: Exchange,
                              r: Result<Response, Error>)
      reads this
    {
      match step
      case Failure(e) =>
        r == Failure(e) && postParams == before && sent == sentBefore
      case Success(request) =>
        && postParams == request
        && sent == sentBefore + [request]
        && r == Success(Respond(test, exchange(url, request)))
    }

    constructor (options: Fields, test: bool)
      requires "login" in options && "password" in options && "signature" in options
      ensures Valid()
      ensures this.options == options && this.test == test
      ensures url == (if test then TestEndpoint else LiveEndpoint)
      ensures version == (if "version" in options then options["version"] else DefaultVersion)
      ensures defaultCurrency == (if "currency" in options then options["currency"] else DefaultCurrency)
      ensures postParams.Keys == AuthFields
      ensures postParams[User] == options["login"] && postParams[Pwd] == options["password"]
      ensures postParams[Signature] == options["signature"]
      ensures postParams[Version] == version && postParams[CurrencyCode] == defaultCurrency
      ensures token == None && payerId == None && sent == []
    {
      var version := if "version" in options then options["version"] else DefaultVersion;
      var currency := if "currency" in options then options["currency"] else DefaultCurrency;
      this.options := options;
      this.test := test;
      this.version := version;
      defaultCurrency := currency;
      url := if test then TestEndpoint else LiveEndpoint;
      new;
      postParams := AuthBlock(options["login"], options["password"], version, options["signature"], currency);
      token, payerId := None, None;
      sent := [];
    }

    /** `commit`: send one request to the instance's endpoint and classify the reply. */
    method Commit(request: Request, exchange: Exchange) returns (r: Response)
      modifies this`sent
      ensures sent == old(sent) + [request]
      ensures r == Respond(test, exchange(url, request))
    {
      sent := sent + [request];
      r := Respond(test, exchange(url, request));
    }

    /** `setup`: begin a checkout for `amount` with the payment action `action`. */
    method Setup(amount: string, action: string, options: Fields, exchange: Exchange) returns (r: Result<Response, Error>)
      requires Valid()
      modifies this`postParams, this`sent
      ensures Valid()
      ensures Committed(old(postParams), old(sent), SetupRequest(old(postParams), amount, action, options), exchange, r)
    {
      if "return_url" !in options || "cancel_return_url" !in options {
        return Failure(MissingParameter(Missing(SetupOptions, options)));
      }
      var params := map[
        Method := "SetExpressCheckout",
        PaymentAction := action,
        Amt := amount,
        ReturnUrl := options["return_url"],
        CancelUrl := options["cancel_return_url"]];
      MergeKeepsCredentials(postParams, params);
      postParams := postParams + params;
      var response := Commit(postParams, exchange);
      r := Success(response);
    }

    method SetupAuthorize(amount: string, options: Fields, exchange: Exchange) returns (r: Result<Response, Error>)
      requires Valid()
      modifies this`postParams, this`sent
      ensures Valid()
      ensures Committed(old(postParams), old(sent), SetupRequest(old(postParams), amount, "Authorization", options), exchange, r)
    {
      r := Setup(amount, "Authorization", options, exchange);
    }

    method SetupPurchase(amount: string, options: Fields, exchange: Exchange) returns (r: Result<Response, Error>)
      requires Valid()
      modifies this`postParams, this`sent
      ensures Valid()
      ensures Committed(old(postParams), old(sent), SetupRequest(old(postParams), amount, "Sale", options), exchange, r)
    {
      r := Setup(amount, "Sale", options, exchange);
    }

    /** The first two steps of `do_action`: an option the call leaves unset is
        taken from the session, when the session holds it. */
    method FillFromSession(options: Fields) returns (resolved: Fields)
      ensures resolved == WithSession(options, token, payerId)
    {
      resolved := options;
      if "token" !in resolved && token.Some? {
        resolved := resolved["token" := token.value];
      }
      if "payer_id" !in resolved && payerId.Some? {
        resolved := resolved["payer_id" := payerId.value];
      }
    }

    /** `do_action`: complete the checkout with the payment action `action`,
        taking the token and the payer from the session when the call omits them. */
    method DoAction(amount: string, action: string, options: Fields, exchange: Exchange) returns (r: Result<Response, Error>)
      requires Valid()
      modifies this`postParams, this`sent
      ensures Valid()
      ensures Committed(old(postParams), old(sent), DoActionRequest(old(postParams), amount, action, options, old(token), old(payerId)), exchange, r)
    {
      var resolved := FillFromSession(options);
      ghost var step := DoActionRequest(postParams, amount, action, options, token, payerId);
      if "token" !in resolved || "payer_id" !in resolved {
        return Failure(MissingParameter(Missing(SessionOptions, resolved)));
      }
      var params := map[
        Method := "DoExpressCheckoutPayment",
        PaymentAction := action,
        Amt := amount,
        Token := resolved["token"],
        PayerId := resolved["payer_id"]];
      assert step == Success(postParams + params);
      MergeKeepsCredentials(postParams, params);
      postParams := postParams + params;
      var response := Commit(postParams, exchange);
      r := Success(response);
    }

    method Authorize(amount: string, options: Fields, exchange: Exchange) returns (r: Result<Response, Error>)
      requires Valid()
      modifies this`postParams, this`sent
      ensures Valid()
      ensures Committed(old(postParams), old(sent), DoActionRequest(old(postParams), amount, "Authorization", options, old(token), old(payerId)), exchange, r)
    {
      r := DoAction(amount, "Authorization", options, exchange);
    }

    method Purchase(amount: string, options: Fields, exchange: Exchange) returns (r: Result<Response, Error>)
      requires Valid()
      modifies this`postParams, this`sent
      ensures Valid()
      ensures Committed(old(postParams), old(sent), DoActionRequest(old(postParams), amount, "Sale", options, old(token), old(payerId)), exchange, r)
    {
      r := DoAction(amount, "Sale", options, exchange);
    }

    /** `get_details_for`: remember the decoded token and payer, then ask for
        the checkout's details with the token as received. The session is
        overwritten before the request is sent, whatever the reply says. */
    method GetDetailsFor(rawToken: string, rawPayerId: string, urlDecode: string -> string, exchange: Exchange)
      returns (r: Response)
      requires Valid()
      modifies this`postParams, this`sent, this`token, this`payerId
      ensures Valid()
      ensures token == Some(urlDecode(rawToken)) && payerId == Some(urlDecode(rawPayerId))
      ensures postParams == DetailsRequest(old(postParams), rawToken)
      ensures sent == old(sent) + [postParams]
      ensures r == Respond(test, exchange(url, postParams))
    {
      payerId := Some(urlDecode(rawPayerId));
      token := Some(urlDecode(rawToken));
      var params := map[Method := "GetExpressCheckoutDetails", Token := rawToken];
      MergeKeepsCredentials(postParams, params);
      postParams := postParams + params;
      r := Commit(postParams, exchange);
    }

    /** `url_for_token`: the redirect address for a token, the token appended verbatim. */
    function UrlForToken(token: string): (redirect: string)
      ensures |redirect| == |redirectUrl| + |token|
      ensures redirect[..|redirectUrl|] == redirectUrl && redirect[|redirectUrl|..] == token
    {
      redirectUrl + token
    }

    /** Distinct tokens give distinct redirect addresses. */
    lemma UrlForTokenInjective(t1: string, t2: string)
      requires UrlForToken(t1) == UrlForToken(t2)
      ensures t1 == t2
    {
      assert t1 == UrlForToken(t1)[|redirectUrl|..];
    }
  }

  /** Building the adapter: the credentials must be present, or the
      constructor throws before any request exists. */
  method Connect(options: Fields, test: bool) returns (r: Result<PaypalExpress, Error>)
    ensures r.Failure? <==> Missing(CredentialOptions, options) != []
    ensures r.Failure? ==> r.error == MissingParameter(Missing(CredentialOptions, options))
    ensures r.Success? ==> fresh(r.value) && r.value.Valid() && r.value.options == options && r.value.test == test
    ensures r.Success? ==>
      && r.value.url == (if test then TestEndpoint else LiveEndpoint)
      && r.value.version == (if "version" in options then options["version"] else DefaultVersion)
      && r.value.defaultCurrency == (if "currency" in options then options["currency"] else DefaultCurrency)
    ensures r.Success? ==>
      && "login" in options && "password" in options && "signature" in options
      && r.value.postParams == AuthBlock(options["login"], options["password"], r.value.version,
                                         options["signature"], r.value.defaultCurrency)
    ensures r.Success? ==> r.value.token == None && r.value.payerId == None && r.value.sent == []
  {
    var absent := Missing(CredentialOptions, options);
    if absent != [] {
      return Failure(MissingParameter(absent));
    }
    assert "login" in CredentialOptions && "password" in CredentialOptions && "signature" in CredentialOptions;
    var gateway := new PaypalExpress(options, test);
    r := Success(gateway);
  }

  /** A payment whose options name neither the token nor the payer, after a
      details fetch has filled the session, succeeds with the session's
      values and leaves every field it does not write as the earlier calls
      left it: a setup's RETURNURL and CANCELURL ride along. */
  lemma SessionPaymentKeepsEarlierFields(params: Request, amount: string, action: string,
                                         sessionToken: string, sessionPayer: string)
    ensures DoActionRequest(params, amount, action, map[], Some(sessionToken), Some(sessionPayer)).Success?
    ensures
      var payment := DoActionRequest(params, amount, action, map[], Some(sessionToken), Some(sessionPayer)).value;
      && payment[Token] == sessionToken && payment[PayerId] == sessionPayer
      && forall f :: f in params && f !in PaymentFields ==> f in payment && payment[f] == params[f]
  {
  }

  /** The requests of a sale as a merchant drives it: begin the checkout,
      then fetch the buyer's details with the token as received. The
      details request still carries the setup's payment action and
      addresses, over whatever the parameters held before; a payment that
      follows is covered by `SessionPaymentKeepsEarlierFields`. */
  lemma SetupThenDetails(seeded: Request, amount: string, returnUrl: string, cancelUrl: string, rawToken: string)
    ensures SetupRequest(seeded, amount, "Sale", map["return_url" := returnUrl, "cancel_return_url" := cancelUrl]).Success?
    ensures
      var setup := SetupRequest(seeded, amount, "Sale", map["return_url" := returnUrl, "cancel_return_url" := cancelUrl]).value;
      var details := DetailsRequest(setup, rawToken);
      && details[Method] == "GetExpressCheckoutDetails" && details[Token] == rawToken
      && details[PaymentAction] == "Sale" && details[Amt] == amount
      && details[ReturnUrl] == returnUrl && details[CancelUrl] == cancelUrl
      && forall f :: f in seeded && f !in SetupFields + DetailsFields ==> f in details && details[f] == seeded[f]
  {
  }
}
