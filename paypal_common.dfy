/** The reply side of the PayPal NVP API: how a parsed reply is classified into
    the uniform result a gateway returns (`successful`, `authorization_from`,
    `fraud_review`, `message_from` and the options `commit` builds). Every
    member here is a function of the reply alone, plus the instance's mode. */
module PaypalCommon {
  import opened Nvp

  /** The ACK values that count as success. */
  const SuccessCodes: seq<string> := ["Success", "SuccessWithWarning"]

  /** The first error code PayPal uses to hold a payment for fraud review. */
  const FraudReviewCode: string := "11610"

  /** Where the authorization reference is looked for, highest priority first. */
  const AuthorizationKeys: seq<string> := ["TRANSACTIONID", "AUTHORIZATIONID", "REFUNDTRANSACTIONID"]

  /** Where the message is looked for, highest priority first. */
  const MessageKeys: seq<string> := ["L_LONGMESSAGE0", "ACK"]

  /** Every reply field that classification looks at. */
  const ClassifiedKeys: seq<string> :=
    ["ACK", "TRANSACTIONID", "AUTHORIZATIONID", "REFUNDTRANSACTIONID",
     "L_ERRORCODE0", "L_LONGMESSAGE0", "AVSCODE", "CVV2CODE"]

  datatype AvsResult = AvsResult(code: string)

  /** The options array `commit` hands to the response object. */
  datatype ResultOptions = ResultOptions(
    test: bool,
    authorization: Option<string>,
    fraudReview: bool,
    avsResult: Option<AvsResult>,
    cvvResult: Option<string>)

  /** The response object: success flag, message, the parsed reply and the options. */
  datatype Response = Response(success: bool, message: Option<string>, params: Fields, options: ResultOptions)

  /** Priority fallback as an ordered list of field names: the value of the
      first name in `keys` that the reply carries. This is the reference
      definition the source's chains of `isset` tests are proved against. */
  function FirstPresent(reply: Fields, keys: seq<string>): (v: Option<string>)
    ensures v.None? <==> forall k :: k in keys ==> k !in reply
  {
    if keys == [] then None
    else if keys[0] in reply then Some(reply[keys[0]])
    else FirstPresent(reply, keys[1..])
  }

  /** The first name of `keys` present in the reply decides the value. */
  lemma {:induction false} FirstPresentAt(reply: Fields, keys: seq<string>, i: nat)
    requires i < |keys| && keys[i] in reply
    requires forall j :: 0 <= j < i ==> keys[j] !in reply
    ensures FirstPresent(reply, keys) == Some(reply[keys[i]])
  {
    if i > 0 {
      assert keys[0] !in reply;
      FirstPresentAt(reply, keys[1..], i - 1);
    }
  }

  /** The fallback reads nothing but the listed names. */
  lemma {:induction false} FirstPresentReadsOnlyKeys(r1: Fields, r2: Fields, keys: seq<string>)
    requires forall k :: k in keys ==> Get(r1, k) == Get(r2, k)
    ensures FirstPresent(r1, keys) == FirstPresent(r2, keys)
  {
    if keys != [] {
      assert Get(r1, keys[0]) == Get(r2, keys[0]);
      FirstPresentReadsOnlyKeys(r1, r2, keys[1..]);
    }
  }

  /** Once the name at position `i` is present, no field that is not among the
      names up to `i` can change the outcome, whatever it is set to. */
  lemma {:induction false} FirstPresentIgnoresLater(reply: Fields, keys: seq<string>, i: nat, k: string, v: string)
    requires i < |keys| && keys[i] in reply
    requires k !in keys[..i + 1]
    ensures FirstPresent(reply[k := v], keys) == FirstPresent(reply, keys)
  {
    assert keys[0] in keys[..i + 1];
    if keys[0] !in reply {
      assert keys[1..][..i] == keys[1..i + 1];
      FirstPresentIgnoresLater(reply, keys[1..], i - 1, k, v);
    }
  }

  /** `successful`: the ACK value is one of the success codes. A missing ACK,
      "Failure", "PartialSuccess" or anything else is a failure. */
  function Successful(reply: Fields): (ok: bool)
    ensures ok <==> "ACK" in reply && (reply["ACK"] == "Success" || reply["ACK"] == "SuccessWithWarning")
  {
    match Get(reply, "ACK")
    case None => false
    case Some(ack) => ack in SuccessCodes
  }

  /** `authorization_from`: TRANSACTIONID, else AUTHORIZATIONID, else
      REFUNDTRANSACTIONID, else absent. */
  function AuthorizationFrom(reply: Fields): (reference: Option<string>)
    ensures reference == FirstPresent(reply, AuthorizationKeys)
    ensures reference.None? <==> forall k :: k in AuthorizationKeys ==> k !in reply
  {
    if "TRANSACTIONID" in reply then Some(reply["TRANSACTIONID"])
    else if "AUTHORIZATIONID" in reply then Some(reply["AUTHORIZATIONID"])
    else if "REFUNDTRANSACTIONID" in reply then
      FirstPresentAt(reply, AuthorizationKeys, 2);
      Some(reply["REFUNDTRANSACTIONID"])
    else None
  }

  /** A present higher-priority reference wins whatever any field of lower
      priority, or any unrelated field, holds. */
  lemma AuthorizationIgnoresLowerPriority(reply: Fields, i: nat, k: string, v: string)
    requires i < |AuthorizationKeys| && AuthorizationKeys[i] in reply
    requires k !in AuthorizationKeys[..i + 1]
    ensures AuthorizationFrom(reply[k := v]) == AuthorizationFrom(reply)
  {
    FirstPresentIgnoresLater(reply, AuthorizationKeys, i, k, v);
  }

  /** `fraud_review`: the first error code is present and is the fraud-review code. */
  function FraudReview(reply: Fields): (flagged: bool)
    ensures flagged <==> Get(reply, "L_ERRORCODE0") == Some(FraudReviewCode)
    ensures "L_ERRORCODE0" !in reply ==> !flagged
  {
    if "L_ERRORCODE0" in reply then reply["L_ERRORCODE0"] == FraudReviewCode else false
  }

  /** `message_from`: the long message when present, otherwise the ACK value,
      which may itself be absent. */
  function MessageFrom(reply: Fields): (message: Option<string>)
    ensures message == FirstPresent(reply, MessageKeys)
    ensures message.None? <==> "L_LONGMESSAGE0" !in reply && "ACK" !in reply
  {
    if "L_LONGMESSAGE0" in reply then Some(reply["L_LONGMESSAGE0"]) else Get(reply, "ACK")
  }

  /** What `commit` returns for a parsed reply, on an instance whose mode is `test`. */
  function Respond(test: bool, reply: Fields): Response
  {
    var options := ResultOptions(
      test,
      AuthorizationFrom(reply),
      FraudReview(reply),
      if "AVSCODE" in reply then Some(AvsResult(reply["AVSCODE"])) else None,
      if "CVV2CODE" in reply then Some(reply["CVV2CODE"]) else None);
    Response(Successful(reply), MessageFrom(reply), reply, options)
  }

  /** The result `commit` returns, field by field, in terms of the reply. */
  lemma RespondClassifies(test: bool, reply: Fields)
    ensures var r := Respond(test, reply);
      && r.params == reply
      && (r.success <==> "ACK" in reply && reply["ACK"] in SuccessCodes)
      && r.message == FirstPresent(reply, MessageKeys)
      && r.options.test == test
      && r.options.authorization == FirstPresent(reply, AuthorizationKeys)
      && (r.options.fraudReview <==> Get(reply, "L_ERRORCODE0") == Some(FraudReviewCode))
      && (r.options.avsResult.Some? <==> "AVSCODE" in reply)
      && (r.options.avsResult.Some? ==> r.options.avsResult.value.code == reply["AVSCODE"])
      && (r.options.cvvResult.Some? <==> "CVV2CODE" in reply)
      && (r.options.cvvResult.Some? ==> r.options.cvvResult.value == reply["CVV2CODE"])
  {
  }

  /** Apart from carrying the raw reply, the result depends on nothing but the
      classified fields of the reply and on the mode. */
  lemma ClassificationReadsOnlyClassifiedKeys(test: bool, r1: Fields, r2: Fields)
    requires forall k :: k in ClassifiedKeys ==> Get(r1, k) == Get(r2, k)
    ensures Respond(test, r1).success == Respond(test, r2).success
    ensures Respond(test, r1).message == Respond(test, r2).message
    ensures Respond(test, r1).options == Respond(test, r2).options
  {
    forall k | k in AuthorizationKeys ensures Get(r1, k) == Get(r2, k) {
      assert k in ClassifiedKeys;
    }
    FirstPresentReadsOnlyKeys(r1, r2, AuthorizationKeys);
    forall k | k in MessageKeys ensures Get(r1, k) == Get(r2, k) {
      assert k in ClassifiedKeys;
    }
    FirstPresentReadsOnlyKeys(r1, r2, MessageKeys);
    assert Get(r1, "ACK") == Get(r2, "ACK") by { assert "ACK" in ClassifiedKeys; }
    assert Get(r1, "L_ERRORCODE0") == Get(r2, "L_ERRORCODE0") by { assert "L_ERRORCODE0" in ClassifiedKeys; }
    assert Get(r1, "AVSCODE") == Get(r2, "AVSCODE") by { assert "AVSCODE" in ClassifiedKeys; }
    assert Get(r1, "CVV2CODE") == Get(r2, "CVV2CODE") by { assert "CVV2CODE" in ClassifiedKeys; }
  }
}
