/**
 * The local transaction state and the three translations around it: gateway
 * auth code to local state, gateway payment status to local state, and local
 * state to the coarser state the host keeps on its processing item.
 */
module TransactionStateCodes {
  import opened Wrappers
  import opened Gateway
  import Upstream
  import Php

  /** The state of a local transaction record. */
  datatype TransactionState =
    | LOCAL_UNPROCESSED
    | LOCAL_EXCEPTION
    | STATE_NOT_ALLOWED
    | API_REQUEST_EXCEPTION
    | NO_ERROR_CODE_PROPERTY
    | UNEXPECTED_ERROR_CODE
    | NO_AUTH_CODE_PROPERTY
    | UNEXPECTED_AUTH_CODE
    | PAID
    | PROCESSING
    | FAILED
    | API_ERROR
    | API_TIMEOUT
    | INVALID_AMOUNT
    | DUPLICATE_TRANSACTION

  /** The cases in declaration order. */
  const States: seq<TransactionState> := [
    LOCAL_UNPROCESSED, LOCAL_EXCEPTION, STATE_NOT_ALLOWED, API_REQUEST_EXCEPTION,
    NO_ERROR_CODE_PROPERTY, UNEXPECTED_ERROR_CODE, NO_AUTH_CODE_PROPERTY, UNEXPECTED_AUTH_CODE,
    PAID, PROCESSING, FAILED, API_ERROR, API_TIMEOUT, INVALID_AMOUNT, DUPLICATE_TRANSACTION
  ]

  /** The string each state is stored as in the `state_code` column. */
  function Value(s: TransactionState): string {
    match s
    case LOCAL_UNPROCESSED => "local_unprocessed"
    case LOCAL_EXCEPTION => "local_exception"
    case STATE_NOT_ALLOWED => "state_not_allowed"
    case API_REQUEST_EXCEPTION => "api_request_exception"
    case NO_ERROR_CODE_PROPERTY => "no_error_code_property"
    case UNEXPECTED_ERROR_CODE => "unexpected_error_code"
    case NO_AUTH_CODE_PROPERTY => "no_transaction_auth_code_property"
    case UNEXPECTED_AUTH_CODE => "unexpected_transaction_auth_code"
    case PAID => "paid"
    case PROCESSING => "processing"
    case FAILED => "failed"
    case API_ERROR => "api_error"
    case API_TIMEOUT => "api_timeout"
    case INVALID_AMOUNT => "invalid_amount"
    case DUPLICATE_TRANSACTION => "duplicate_transaction"
  }

  /** Reading the `state_code` column back (the enum cast's `tryFrom`). */
  function FromValue(v: string): (r: Option<TransactionState>)
    ensures r.Some? ==> Value(r.value) == v
  {
    Php.TryFrom(States, Value, v)
  }

  /** No two states share a stored string. */
  lemma ValueInjective(s: TransactionState, t: TransactionState)
    ensures Value(s) == Value(t) ==> s == t
  {
  }

  /** Every state survives a trip through the `state_code` column. */
  lemma ValueRoundTrip(s: TransactionState)
    ensures FromValue(Value(s)) == Some(s)
  {
    assert s in States;
    var r := FromValue(Value(s));
    ValueInjective(r.value, s);
  }

  /** `makeFromAuthCode`: only a successful authorisation means processing. */
  function MakeFromAuthCode(c: AuthCode): (s: TransactionState)
    ensures s == PROCESSING || s == API_ERROR
    ensures s == PROCESSING <==> c == AUTH_SUCCESS
  {
    match c
    case AUTH_SUCCESS => PROCESSING
    case AUTH_FAILED => API_ERROR
    case GENERIC_FAILURE => API_ERROR
  }

  /** The local states a gateway payment status can translate to. */
  const GatewayOutcomes: set<TransactionState> :=
    {API_ERROR, INVALID_AMOUNT, PROCESSING, FAILED, PAID, DUPLICATE_TRANSACTION}

  /** `makeFromPaymentStatusCode`: the curated table from gateway payment status to local state. */
  function MakeFromPaymentStatusCode(c: PaymentStatusCode): (s: TransactionState)
    ensures s in GatewayOutcomes
    ensures s == PAID <==> c == PAYMENT_ACCEPTED || c == PAYMENT_MANUALLY_ACCEPTED
    ensures s == FAILED <==> c == PAYMENT_REJECTED || c == PAYMENT_MANUALLY_REJECTED
    ensures s == PROCESSING <==> c == POSTED_AND_PENDING_ACKNOWLEDGEMENT || c == PAYMENT_ESCALATED
    ensures s == INVALID_AMOUNT <==>
              || c == INVALID_INVOICE_AMOUNT
              || c == AMOUNT_SPECIFIED_IS_GREATER_THAN_MAXIMUM_ALLOWED
              || c == AMOUNT_SPECIFIED_IS_LESS_THAN_MINIMUM_ALLOWED
    ensures s == DUPLICATE_TRANSACTION <==> c == DUPLICATE_PAYMENT_FOUND
  {
    match c
    case GENERIC_EXCEPTION => API_ERROR
    case INACTIVE_SERVICE => API_ERROR
    case CUSTOMER_MSISDN_MISSING => API_ERROR
    case INVALID_CUSTOMER_MSISDN => API_ERROR
    case INVALID_INVOICE_AMOUNT => INVALID_AMOUNT
    case INVALID_CURRENCY_CODE => API_ERROR
    case ACCOUNT_NUMBER_NOT_SPECIFIED => API_ERROR
    case POSTED_AND_PENDING_ACKNOWLEDGEMENT => PROCESSING
    case INVOICE_DOES_NOT_EXIST => API_ERROR
    case INVALID_SERVICEID => API_ERROR
    case GENERIC_FAILURE => API_ERROR
    case PAYMENT_REJECTED => FAILED
    case PAYMENT_ACCEPTED => PAID
    case PAYMENT_MANUALLY_REJECTED => FAILED
    case PAYMENT_MANUALLY_ACCEPTED => PAID
    case PAYMENT_ESCALATED => PROCESSING
    case AMOUNT_SPECIFIED_IS_GREATER_THAN_MAXIMUM_ALLOWED => INVALID_AMOUNT
    case AMOUNT_SPECIFIED_IS_LESS_THAN_MINIMUM_ALLOWED => INVALID_AMOUNT
    case DUPLICATE_PAYMENT_FOUND => DUPLICATE_TRANSACTION
  }

  /** The range of the payment-status table is exactly the six gateway outcomes. */
  lemma PaymentStatusRange(s: TransactionState)
    ensures (exists c :: MakeFromPaymentStatusCode(c) == s) <==> s in GatewayOutcomes
  {
    if s in GatewayOutcomes {
      var c := match s
        case API_ERROR => GENERIC_EXCEPTION
        case INVALID_AMOUNT => INVALID_INVOICE_AMOUNT
        case PROCESSING => POSTED_AND_PENDING_ACKNOWLEDGEMENT
        case FAILED => PAYMENT_REJECTED
        case PAID => PAYMENT_ACCEPTED
        case _ => DUPLICATE_PAYMENT_FOUND;
      assert MakeFromPaymentStatusCode(c) == s;
    }
  }

  /** The local states that report a generic exception upstream. */
  const ExceptionStates: set<TransactionState> := {
    STATE_NOT_ALLOWED, API_REQUEST_EXCEPTION, NO_ERROR_CODE_PROPERTY,
    UNEXPECTED_ERROR_CODE, NO_AUTH_CODE_PROPERTY, UNEXPECTED_AUTH_CODE
  }

  /** `getProcessingItemStateCode`: the state the host's processing item takes for each local state. */
  function ProcessingItemStateCode(s: TransactionState): (r: Upstream.ProcessingItemState)
    ensures r == Upstream.EXCEPTION <==> s in ExceptionStates
    ensures r == Upstream.PROVIDER_PENDING <==> s == PROCESSING
    ensures r == Upstream.PROCESSED <==> s == PAID
    ensures r == Upstream.MANUAL_RECONCILIATION_REQUIRED <==> s == FAILED || s == LOCAL_EXCEPTION
  {
    match s
    case LOCAL_UNPROCESSED => Upstream.PENDING
    case LOCAL_EXCEPTION => Upstream.MANUAL_RECONCILIATION_REQUIRED
    case STATE_NOT_ALLOWED => Upstream.EXCEPTION
    case API_REQUEST_EXCEPTION => Upstream.EXCEPTION
    case NO_ERROR_CODE_PROPERTY => Upstream.EXCEPTION
    case UNEXPECTED_ERROR_CODE => Upstream.EXCEPTION
    case NO_AUTH_CODE_PROPERTY => Upstream.EXCEPTION
    case UNEXPECTED_AUTH_CODE => Upstream.EXCEPTION
    case PROCESSING => Upstream.PROVIDER_PENDING
    case PAID => Upstream.PROCESSED
    case FAILED => Upstream.MANUAL_RECONCILIATION_REQUIRED
    case API_ERROR => Upstream.PROVIDER_NOT_ACCEPTING_TRANSACTIONS
    case API_TIMEOUT => Upstream.PROVIDER_TIMEOUT
    case INVALID_AMOUNT => Upstream.TRANSACTION_AMOUNT_INVALID
    case DUPLICATE_TRANSACTION => Upstream.DUPLICATE_TARGET_TRANSACTION
  }

  /** No gateway payment status, once translated, is reported upstream as a generic exception. */
  lemma PaymentStatusNeverException(c: PaymentStatusCode)
    ensures ProcessingItemStateCode(MakeFromPaymentStatusCode(c)) != Upstream.EXCEPTION
  {
  }
}
