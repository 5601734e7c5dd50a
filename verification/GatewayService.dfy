/** The gateway client of services/useGatewayService.js: the payload sent to
    open a payment, the error wrapping of the two remote calls, the fallback
    currency list, and the webhook signature check. The remote answers are
    inputs; HMAC-SHA256 (RFC 2104 over SHA-256 of FIPS 180-4) and Base16
    decoding (section 8 of RFC 4648) are opaque functions supplied by the
    caller. */
module GatewayService {
  import opened Prelude
  import opened JsStrings
  import PaymentModel

  /** Thirty minutes in milliseconds: the lifetime of a payment. */
  const PaymentLifetimeMs: int := 30 * 60 * 1000

  // ---------------------------------------------------------------------------
  // createPayment

  /** The argument of `createPayment`. */
  datatype PaymentData = PaymentData(currency: string, amount: int, orderId: string,
                                     callbackUrl: string, returnUrl: Option<string>)

  /** The JSON body posted to the gateway's `/payments` endpoint. */
  datatype GatewayPayload = GatewayPayload(currency: string, amount: int, orderId: string,
                                           callbackUrl: string, returnUrl: Option<string>,
                                           description: string, expiresAt: int)

  const DescriptionPrefix: string := "Payment for order "

  /** The request-body translation of `createPayment`. */
  function BuildPayload(data: PaymentData, now: int): (p: GatewayPayload)
    ensures p.currency == data.currency && p.amount == data.amount
    ensures p.orderId == data.orderId && p.callbackUrl == data.callbackUrl && p.returnUrl == data.returnUrl
    ensures |p.description| == |DescriptionPrefix| + |data.orderId|
    ensures p.description[..|DescriptionPrefix|] == DescriptionPrefix
    ensures p.description[|DescriptionPrefix|..] == data.orderId
    ensures p.expiresAt == now + PaymentLifetimeMs
  {
    GatewayPayload(data.currency, data.amount, data.orderId, data.callbackUrl, data.returnUrl,
                   DescriptionPrefix + data.orderId, now + PaymentLifetimeMs)
  }

  /** Reading the caller's data back out of a payload. */
  function DataOf(p: GatewayPayload): PaymentData {
    PaymentData(p.currency, p.amount, p.orderId, p.callbackUrl, p.returnUrl)
  }

  /** The payload loses nothing the caller passed in, and its description
      alone identifies the order. */
  lemma BuildPayloadRoundTrip(data: PaymentData, other: PaymentData, now: int, now': int)
    ensures DataOf(BuildPayload(data, now)) == data
    ensures BuildPayload(data, now).description == BuildPayload(other, now').description
            ==> data.orderId == other.orderId
  {
    var d1 := BuildPayload(data, now).description;
    var d2 := BuildPayload(other, now').description;
    if d1 == d2 {
      assert d1[|DescriptionPrefix|..] == d2[|DescriptionPrefix|..];
    }
  }

  /** A failed axios call: the gateway's `response.data.message`, when there
      was a response carrying one, and the error's own message. */
  datatype GatewayError = GatewayError(responseMessage: Option<string>, message: string)

  /** `error.response?.data?.message || error.message`. */
  function ErrorDetail(e: GatewayError): (d: string)
    ensures Truthy(e.responseMessage) ==> d == e.responseMessage.value
    ensures !Truthy(e.responseMessage) ==> d == e.message
  {
    if Truthy(e.responseMessage) then e.responseMessage.value else e.message
  }

  const CreateFailedPrefix: string := "Payment creation failed: "
  const StatusFailedPrefix: string := "Failed to get payment status: "

  /** The gateway's answer to a successful `POST /payments`. */
  datatype CreatedPayment = CreatedPayment(cryptoAmount: Option<int>, address: Option<string>,
                                           paymentUrl: Option<string>)

  /** What one call of `createPayment` did: the body it sent, and the gateway
      answer it returned or the message of the Error it threw. */
  datatype CreateCall = CreateCall(sent: GatewayPayload, result: Result<CreatedPayment, string>)

  /** `createPayment(data)`, given the gateway's answer to the request. */
  function CreatePayment(data: PaymentData, now: int, answer: Result<CreatedPayment, GatewayError>): (c: CreateCall)
    ensures c.sent == BuildPayload(data, now)
    ensures answer.Ok? ==> c.result == Ok(answer.value)
    ensures answer.Err? ==> c.result == Err(CreateFailedPrefix + ErrorDetail(answer.error))
  {
    var sent := BuildPayload(data, now);
    match answer
    case Ok(created) => CreateCall(sent, Ok(created))
    case Err(e) => CreateCall(sent, Err(CreateFailedPrefix + ErrorDetail(e)))
  }

  // ---------------------------------------------------------------------------
  // getPaymentStatus

  /** The gateway's answer to `GET /payments/:id`. */
  datatype StatusAnswer = StatusAnswer(status: Option<string>, txHash: Option<string>)

  const StatusPathPrefix: string := "/payments/"

  /** A status query: the path requested, and what the call returned or threw. */
  datatype StatusCall = StatusCall(requested: string, result: Result<StatusAnswer, string>)

  /** `getPaymentStatus(id)`, given the gateway's answer to the request. The
      id is put into the path as it is, so the path names exactly one id. */
  function GetPaymentStatus(paymentId: string, answer: Result<StatusAnswer, GatewayError>): (c: StatusCall)
    ensures |StatusPathPrefix| <= |c.requested|
    ensures c.requested[..|StatusPathPrefix|] == StatusPathPrefix
    ensures c.requested[|StatusPathPrefix|..] == paymentId
    ensures answer.Ok? ==> c.result == Ok(answer.value)
    ensures answer.Err? ==> c.result == Err(StatusFailedPrefix + ErrorDetail(answer.error))
  {
    var requested := StatusPathPrefix + paymentId;
    match answer
    case Ok(s) => StatusCall(requested, Ok(s))
    case Err(e) => StatusCall(requested, Err(StatusFailedPrefix + ErrorDetail(e)))
  }

  /** Two status queries request the same path exactly when they are about
      the same payment. */
  lemma StatusPathNamesPayment(id1: string, id2: string, a1: Result<StatusAnswer, GatewayError>,
                               a2: Result<StatusAnswer, GatewayError>)
    ensures GetPaymentStatus(id1, a1).requested == GetPaymentStatus(id2, a2).requested <==> id1 == id2
  {
    var r1 := GetPaymentStatus(id1, a1).requested;
    var r2 := GetPaymentStatus(id2, a2).requested;
    if r1 == r2 {
      assert id1 == r1[|StatusPathPrefix|..];
    }
  }

  /** Each wrapped message gives back the detail it wraps, and the two
      prefixes keep a create failure apart from a status failure. */
  lemma WrappedErrorsRecoverable(data: PaymentData, now: int, e1: GatewayError, paymentId: string, e2: GatewayError)
    ensures var m := CreatePayment(data, now, Err(e1)).result.error;
            |CreateFailedPrefix| <= |m| && m[|CreateFailedPrefix|..] == ErrorDetail(e1)
    ensures var m := GetPaymentStatus(paymentId, Err(e2)).result.error;
            |StatusFailedPrefix| <= |m| && m[|StatusFailedPrefix|..] == ErrorDetail(e2)
    ensures CreatePayment(data, now, Err(e1)).result.error != GetPaymentStatus(paymentId, Err(e2)).result.error
  {
    var m1 := CreatePayment(data, now, Err(e1)).result.error;
    var m2 := GetPaymentStatus(paymentId, Err(e2)).result.error;
    assert m1[0] == 'P' && m2[0] == 'F';
  }

  // ---------------------------------------------------------------------------
  // getSupportedCurrencies

  datatype CurrencyInfo = CurrencyInfo(code: string, name: string)

  /** The list returned when the currencies request fails. */
  const FallbackCurrencies: seq<CurrencyInfo> := [
    CurrencyInfo("BTC", "Bitcoin"),
    CurrencyInfo("ETH", "Ethereum"),
    CurrencyInfo("USDT", "Tether"),
    CurrencyInfo("LTC", "Litecoin"),
    CurrencyInfo("BCH", "Bitcoin Cash"),
    CurrencyInfo("XRP", "Ripple"),
    CurrencyInfo("ADA", "Cardano"),
    CurrencyInfo("DOT", "Polkadot"),
    CurrencyInfo("MATIC", "Polygon")
  ]

  function Codes(cs: seq<CurrencyInfo>): (r: seq<string>)
    ensures |r| == |cs|
    ensures forall i :: 0 <= i < |cs| ==> r[i] == cs[i].code
  {
    seq(|cs|, i requires 0 <= i < |cs| => cs[i].code)
  }

  /** `getSupportedCurrencies()`: the gateway's list, or the fallback when
      the request fails; the fallback lists exactly the codes a Payment may
      carry, in the same order. */
  function GetSupportedCurrencies(answer: Result<seq<CurrencyInfo>, GatewayError>): (r: seq<CurrencyInfo>)
    ensures answer.Ok? ==> r == answer.value
    ensures answer.Err? ==> Codes(r) == PaymentModel.CurrencyCodes
    ensures answer.Err? ==> forall i :: 0 <= i < |r| ==> PaymentModel.IsCurrency(r[i].code)
  {
    match answer
    case Ok(list) => list
    case Err(_) => FallbackCurrencies
  }

  // ---------------------------------------------------------------------------
  // verifyWebhookSignature

  type Byte = bv8

  /** The foreign primitives: `createHmac('sha256', key).update(payload).digest('hex')`
      and `Buffer.from(s, 'hex')`. Neither throws for string arguments. */
  datatype Crypto = Crypto(hmacHex: (string, string) -> string, hexDecode: string -> seq<Byte>)

  /** The exceptions the body of the check can raise. */
  datatype VerifyError =
    | MissingKey        // `createHmac` with an undefined key
    | MissingSignature  // `undefined.replace(...)`
    | LengthMismatch    // `timingSafeEqual` on buffers of different lengths

  const SignaturePrefix: string := "sha256="

  /** The received signature with the first `sha256=` removed. */
  function ReceivedDigest(signature: string): (d: string)
    ensures (forall k :: 0 <= k ==> !OccursAt(signature, SignaturePrefix, k)) ==> d == signature
    ensures OccursAt(signature, SignaturePrefix, 0) ==> d == signature[|SignaturePrefix|..]
    ensures |d| == |signature| || |d| + |SignaturePrefix| == |signature|
  {
    ReplaceFirst(signature, SignaturePrefix, "")
  }

  /** The body of the `try` block: the comparison, or the exception it raised. */
  function VerifyAttempt(crypto: Crypto, secret: Option<string>, payload: string, signature: Option<string>)
    : (r: Result<bool, VerifyError>)
    ensures secret.None? ==> r == Err(MissingKey)
    ensures secret.Some? && signature.None? ==> r == Err(MissingSignature)
    ensures secret.Some? && signature.Some? ==>
              (r == Err(LengthMismatch) <==> |crypto.hexDecode(crypto.hmacHex(secret.value, payload))|
                                              != |crypto.hexDecode(ReceivedDigest(signature.value))|)
    ensures r.Ok? ==> |crypto.hexDecode(crypto.hmacHex(secret.value, payload))|
                      == |crypto.hexDecode(ReceivedDigest(signature.value))|
  {
    if secret.None? then Err(MissingKey)
    else
      var expected := crypto.hexDecode(crypto.hmacHex(secret.value, payload));
      if signature.None? then Err(MissingSignature)
      else
        var received := crypto.hexDecode(ReceivedDigest(signature.value));
        if |expected| != |received| then Err(LengthMismatch)
        else Ok(expected == received)
  }

  /** `verifyWebhookSignature(payload, signature)`: every exception becomes
      `false`; otherwise the decoded digests are compared byte for byte. */
  function VerifyWebhookSignature(crypto: Crypto, secret: Option<string>, payload: string, signature: Option<string>)
    : (ok: bool)
    ensures ok <==> secret.Some? && signature.Some?
                    && crypto.hexDecode(crypto.hmacHex(secret.value, payload))
                       == crypto.hexDecode(ReceivedDigest(signature.value))
    ensures ok <==> VerifyAttempt(crypto, secret, payload, signature) == Ok(true)
  {
    match VerifyAttempt(crypto, secret, payload, signature)
    case Ok(b) => b
    case Err(_) => false
  }

  predicate IsHexDigit(c: char) {
    ('0' <= c <= '9') || ('a' <= c <= 'f') || ('A' <= c <= 'F')
  }

  predicate IsHex(s: string) {
    forall k :: 0 <= k < |s| ==> IsHexDigit(s[k])
  }

  /** A hex string never contains `sha256=`: its first character `s` is
      not a hex digit. */
  lemma HexLacksPrefix(d: string)
    requires IsHex(d)
    ensures forall k :: 0 <= k ==> !OccursAt(d, SignaturePrefix, k)
  {
    forall k | 0 <= k
      ensures !OccursAt(d, SignaturePrefix, k)
    {
      if k + |SignaturePrefix| <= |d| {
        var w := d[k..k + |SignaturePrefix|];
        assert w[0] == d[k];
        assert IsHexDigit(w[0]);
        assert !IsHexDigit(SignaturePrefix[0]);
      }
    }
  }

  /** Stripping the tag leaves a hex digest alone. */
  lemma HexHasNoPrefix(d: string)
    requires IsHex(d)
    ensures ReceivedDigest(d) == d
  {
    HexLacksPrefix(d);
  }

  /** A signature with the `sha256=` tag and the same digest without it are
      judged alike. */
  lemma {:induction false} PrefixedAndBareAgree(crypto: Crypto, secret: Option<string>, payload: string, digest: string)
    requires IsHex(digest)
    ensures VerifyWebhookSignature(crypto, secret, payload, Some(SignaturePrefix + digest))
            == VerifyWebhookSignature(crypto, secret, payload, Some(digest))
  {
    ReplaceFirstPrefix(SignaturePrefix, digest);
    HexHasNoPrefix(digest);
  }

  /** The party holding the secret passes the check, whether or not it tags
      its hex digest. */
  lemma {:induction false} OwnDigestVerifies(crypto: Crypto, secret: string, payload: string, tagged: bool)
    requires IsHex(crypto.hmacHex(secret, payload))
    ensures VerifyWebhookSignature(crypto, Some(secret), payload,
                                   Some((if tagged then SignaturePrefix else "") + crypto.hmacHex(secret, payload)))
  {
    var digest := crypto.hmacHex(secret, payload);
    HexHasNoPrefix(digest);
    if tagged {
      PrefixedAndBareAgree(crypto, Some(secret), payload, digest);
    } else {
      assert "" + digest == digest;
    }
  }
}
