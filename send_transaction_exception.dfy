/**
 * `SendTransactionException`: why submitting a mirror to the gateway
 * failed, tagged with the local state the failure hook persists.
 */
module SendTransactionException {
  import opened Failures
  import opened TransactionStateCodes
  import opened Php

  type SendFailure = Failure<TransactionState>

  function StateNotAllowed(state: TransactionState): (f: SendFailure)
    ensures f.tag == STATE_NOT_ALLOWED
    ensures Embeds(f.reason, "state_code `" + Value(state) + "` not allowed")
  {
    EmbedsEnd(TransactionClass + " ", "state_code `" + Value(state) + "` not allowed");
    assert StateNotAllowedReason(Value(state)) == TransactionClass + " " + ("state_code `" + Value(state) + "` not allowed");
    Failure(STATE_NOT_ALLOWED, StateNotAllowedReason(Value(state)))
  }

  function ApiRequestException(message: string): (f: SendFailure)
    ensures f.tag == API_REQUEST_EXCEPTION && Embeds(f.reason, message)
  {
    EmbedsMiddle("Exception during " + ClientClass + " request with message: `", message, "`");
    Failure(API_REQUEST_EXCEPTION, ApiRequestReason(message))
  }

  function UnexpectedAuthCode(code: string): (f: SendFailure)
    ensures f.tag == UNEXPECTED_AUTH_CODE && Embeds(f.reason, code)
  {
    EmbedsMiddle("Unexpected " + AuthCodeEnumClass + ": `", code, "`");
    Failure(UNEXPECTED_AUTH_CODE, UnexpectedCodeReason(AuthCodeEnumClass, code))
  }

  /** `body` is the raw reply that held no payment result. */
  function NoErrorCode(body: string): (f: SendFailure)
    ensures f.tag == NO_ERROR_CODE_PROPERTY && Embeds(f.reason, body)
  {
    EmbedsMiddle("No " + PaymentStatusCodeEnumClass + " in json `", body, "`");
    Failure(NO_ERROR_CODE_PROPERTY, NoErrorCodeReason(body))
  }

  function UnexpectedErrorCode(code: string): (f: SendFailure)
    ensures f.tag == UNEXPECTED_ERROR_CODE && Embeds(f.reason, code)
  {
    EmbedsMiddle("Unexpected " + PaymentStatusCodeEnumClass + ": `", code, "`");
    Failure(UNEXPECTED_ERROR_CODE, UnexpectedCodeReason(PaymentStatusCodeEnumClass, code))
  }
}
