/**
 * What the core sees of the Tingg gateway client: its two code enums, the
 * decoded shape of a reply, and the decoding steps both jobs apply to a reply
 * before they touch a record.
 *
 * The numeric backing values of the client's enums are not part of this
 * model; a `Codebook` stands for them, and `tryFrom` is a search over the
 * enum's cases by backing value.
 */
module Gateway {
  import opened Wrappers
  import Php

  /** The client's `AuthCodeEnum`. */
  datatype AuthCode = AUTH_SUCCESS | AUTH_FAILED | GENERIC_FAILURE

  /** The client's `PaymentStatusCodeEnum`. */
  datatype PaymentStatusCode =
    | GENERIC_EXCEPTION
    | INACTIVE_SERVICE
    | CUSTOMER_MSISDN_MISSING
    | INVALID_CUSTOMER_MSISDN
    | INVALID_INVOICE_AMOUNT
    | INVALID_CURRENCY_CODE
    | ACCOUNT_NUMBER_NOT_SPECIFIED
    | POSTED_AND_PENDING_ACKNOWLEDGEMENT
    | INVOICE_DOES_NOT_EXIST
    | INVALID_SERVICEID
    | GENERIC_FAILURE
    | PAYMENT_REJECTED
    | PAYMENT_ACCEPTED
    | PAYMENT_MANUALLY_REJECTED
    | PAYMENT_MANUALLY_ACCEPTED
    | PAYMENT_ESCALATED
    | AMOUNT_SPECIFIED_IS_GREATER_THAN_MAXIMUM_ALLOWED
    | AMOUNT_SPECIFIED_IS_LESS_THAN_MINIMUM_ALLOWED
    | DUPLICATE_PAYMENT_FOUND

  /** The cases of `AuthCodeEnum`. */
  const AuthCodes: seq<AuthCode> := [AUTH_SUCCESS, AUTH_FAILED, AuthCode.GENERIC_FAILURE]

  /** The cases of `PaymentStatusCodeEnum`. */
  const PaymentStatusCodes: seq<PaymentStatusCode> := [
    GENERIC_EXCEPTION, INACTIVE_SERVICE, CUSTOMER_MSISDN_MISSING, INVALID_CUSTOMER_MSISDN,
    INVALID_INVOICE_AMOUNT, INVALID_CURRENCY_CODE, ACCOUNT_NUMBER_NOT_SPECIFIED,
    POSTED_AND_PENDING_ACKNOWLEDGEMENT, INVOICE_DOES_NOT_EXIST, INVALID_SERVICEID,
    PaymentStatusCode.GENERIC_FAILURE, PAYMENT_REJECTED, PAYMENT_ACCEPTED,
    PAYMENT_MANUALLY_REJECTED, PAYMENT_MANUALLY_ACCEPTED, PAYMENT_ESCALATED,
    AMOUNT_SPECIFIED_IS_GREATER_THAN_MAXIMUM_ALLOWED, AMOUNT_SPECIFIED_IS_LESS_THAN_MINIMUM_ALLOWED,
    DUPLICATE_PAYMENT_FOUND
  ]

  lemma AuthCodesListed(c: AuthCode)
    ensures c in AuthCodes
  {
  }

  lemma PaymentStatusCodesListed(c: PaymentStatusCode)
    ensures c in PaymentStatusCodes
  {
  }

  /** The backing values of the two enums, as the gateway writes them in a reply. */
  datatype Codebook = Codebook(authValue: AuthCode -> string, statusValue: PaymentStatusCode -> string) {

    /** PHP requires the backing values of one enum's cases to be pairwise distinct. */
    ghost predicate Valid() {
      && (forall a, b :: authValue(a) == authValue(b) ==> a == b)
      && (forall p, q :: statusValue(p) == statusValue(q) ==> p == q)
    }
  }

  /** `AuthCodeEnum::tryFrom($code)`. */
  function TryFromAuthCode(book: Codebook, code: string): (r: Option<AuthCode>)
    ensures r.Some? ==> book.authValue(r.value) == code
    ensures r.None? <==> forall a :: book.authValue(a) != code
  {
    assert forall a :: a in AuthCodes by {
      forall a { AuthCodesListed(a); }
    }
    Php.TryFrom(AuthCodes, book.authValue, code)
  }

  /** `PaymentStatusCodeEnum::tryFrom($code)`. */
  function TryFromStatusCode(book: Codebook, code: string): (r: Option<PaymentStatusCode>)
    ensures r.Some? ==> book.statusValue(r.value) == code
    ensures r.None? <==> forall p :: book.statusValue(p) != code
  {
    assert forall p :: p in PaymentStatusCodes by {
      forall p { PaymentStatusCodesListed(p); }
    }
    Php.TryFrom(PaymentStatusCodes, book.statusValue, code)
  }

  /** Decoding the value an auth code is backed by gives that auth code back. */
  lemma AuthCodeRoundTrip(book: Codebook, a: AuthCode)
    requires book.Valid()
    ensures TryFromAuthCode(book, book.authValue(a)) == Some(a)
  {
  }

  /** Decoding the value a payment status is backed by gives that status back. */
  lemma StatusCodeRoundTrip(book: Codebook, p: PaymentStatusCode)
    requires book.Valid()
    ensures TryFromStatusCode(book, book.statusValue(p)) == Some(p)
  {
  }

  /** One entry of a reply's `results` list. */
  datatype PaymentResult = PaymentResult(statusCode: string, statusDescription: string, beepTransactionID: string)

  /**
   * What a call to the gateway yields: either the client threw (the network,
   * the HTTP layer, or the client itself), or a decoded reply with its auth
   * status code, its list of payment results and the raw body text.
   */
  datatype Reply =
    | TransportFailure(message: string)
    | Response(authStatusCode: string, results: seq<PaymentResult>, rawBody: string)

  /** A reply both of whose codes were recognised. */
  datatype Decoded = Decoded(auth: AuthCode, result: PaymentResult, status: PaymentStatusCode)

  /** Why a reply could not be decoded, in the order the jobs test for it. */
  datatype DecodeError =
    | RequestFailed(message: string)
    | UnknownAuthCode(code: string)
    | NoPaymentResult(body: string)
    | UnknownStatusCode(code: string)

  /**
   * The decoding shared by the submit and poll jobs: a transport failure
   * first, then the auth code, then the first payment result, then its
   * status code.
   */
  function Decode(reply: Reply, book: Codebook): (r: Result<Decoded, DecodeError>)
    ensures r.Err? && r.error.RequestFailed? <==> reply.TransportFailure?
    ensures reply.TransportFailure? ==> r.error.message == reply.message
    ensures r.Err? && r.error.UnknownAuthCode? <==>
              reply.Response? && forall a :: book.authValue(a) != reply.authStatusCode
    ensures r.Err? && r.error.UnknownAuthCode? ==> r.error.code == reply.authStatusCode
    ensures r.Err? && r.error.NoPaymentResult? <==>
              reply.Response? && (exists a :: book.authValue(a) == reply.authStatusCode) && reply.results == []
    ensures r.Err? && r.error.UnknownStatusCode? <==>
              && reply.Response? && (exists a :: book.authValue(a) == reply.authStatusCode) && reply.results != []
              && forall p :: book.statusValue(p) != reply.results[0].statusCode
    ensures r.Ok? ==>
              && reply.Response? && reply.results != [] && r.value.result == reply.results[0]
              && book.authValue(r.value.auth) == reply.authStatusCode
              && book.statusValue(r.value.status) == r.value.result.statusCode
  {
    match reply
    case TransportFailure(message) => Err(RequestFailed(message))
    case Response(authStatusCode, results, rawBody) =>
      match TryFromAuthCode(book, authStatusCode)
      case None => Err(UnknownAuthCode(authStatusCode))
      case Some(auth) =>
        if results == [] then Err(NoPaymentResult(rawBody))
        else
          match TryFromStatusCode(book, results[0].statusCode)
          case None => Err(UnknownStatusCode(results[0].statusCode))
          case Some(status) => Ok(Decoded(auth, results[0], status))
  }
}
