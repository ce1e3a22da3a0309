/**
 * `FetchTransactionUpdateException`: why polling the gateway for a mirror's
 * status failed. Its failures carry a local state like the send failures,
 * and one more tag for a missing remote reference.
 */
module FetchTransactionUpdateException {
  import opened Wrappers
  import opened Failures
  import opened TransactionStateCodes
  import opened Php

  /**
   * The tag of a fetch failure. The state enumeration has no case for a
   * missing remote reference, so that failure gets a tag of its own.
   */
  datatype FetchTag = StateTag(state: TransactionState) | NoRemoteReference

  type FetchFailure = Failure<FetchTag>

  function StateNotAllowed(state: TransactionState): (f: FetchFailure)
    ensures f.tag == StateTag(STATE_NOT_ALLOWED)
    ensures Embeds(f.reason, "state_code `" + Value(state) + "` not allowed")
  {
    EmbedsEnd(TransactionClass + " ", "state_code `" + Value(state) + "` not allowed");
    assert StateNotAllowedReason(Value(state)) == TransactionClass + " " + ("state_code `" + Value(state) + "` not allowed");
    Failure(StateTag(STATE_NOT_ALLOWED), StateNotAllowedReason(Value(state)))
  }

  /**
   * The remote reference is empty. The reason quotes it as PHP interpolates
   * it, so a missing reference shows as nothing between the backquotes.
   */
  function EmptyRemoteReference(remoteReference: Option<string>): (f: FetchFailure)
    ensures f.tag == NoRemoteReference
    ensures Embeds(f.reason, "remote_reference `" + Interpolate(remoteReference) + "` is empty")
  {
    var quoted := "remote_reference `" + Interpolate(remoteReference) + "` is empty";
    EmbedsEnd(TransactionClass + " ", quoted);
    Failure(NoRemoteReference, TransactionClass + " " + quoted)
  }

  /** What PHP raises when the class refers to an enumeration case it does not have. */
  const UndefinedNoRemoteReference := "Undefined constant " + TransactionStateCodeEnumClass + "::NO_REMOTE_REFERENCE"

  /**
   * The named constructor as written: it tags the failure with
   * `TransactionStateCodeEnum::NO_REMOTE_REFERENCE`, which the enumeration
   * does not define, so building it raises an unclassified error instead.
   */
  function EmptyRemoteReferenceAsWritten(remoteReference: Option<string>): (e: JobError<FetchTag>)
    ensures e.Unclassified? && e.message == UndefinedNoRemoteReference
  {
    Unclassified(UndefinedNoRemoteReference)
  }

  function ApiRequestException(message: string): (f: FetchFailure)
    ensures f.tag == StateTag(API_REQUEST_EXCEPTION) && Embeds(f.reason, message)
  {
    EmbedsMiddle("Exception during " + ClientClass + " request with message: `", message, "`");
    Failure(StateTag(API_REQUEST_EXCEPTION), ApiRequestReason(message))
  }

  function UnexpectedAuthCode(code: string): (f: FetchFailure)
    ensures f.tag == StateTag(UNEXPECTED_AUTH_CODE) && Embeds(f.reason, code)
  {
    EmbedsMiddle("Unexpected " + AuthCodeEnumClass + ": `", code, "`");
    Failure(StateTag(UNEXPECTED_AUTH_CODE), UnexpectedCodeReason(AuthCodeEnumClass, code))
  }

  /** `body` is the raw reply that held no payment result. */
  function NoErrorCode(body: string): (f: FetchFailure)
    ensures f.tag == StateTag(NO_ERROR_CODE_PROPERTY) && Embeds(f.reason, body)
  {
    EmbedsMiddle("No " + PaymentStatusCodeEnumClass + " in json `", body, "`");
    Failure(StateTag(NO_ERROR_CODE_PROPERTY), NoErrorCodeReason(body))
  }

  function UnexpectedErrorCode(code: string): (f: FetchFailure)
    ensures f.tag == StateTag(UNEXPECTED_ERROR_CODE) && Embeds(f.reason, code)
  {
    EmbedsMiddle("Unexpected " + PaymentStatusCodeEnumClass + ": `", code, "`");
    Failure(StateTag(UNEXPECTED_ERROR_CODE), UnexpectedCodeReason(PaymentStatusCodeEnumClass, code))
  }
}
