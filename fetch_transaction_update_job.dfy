/**
 * `FetchTransactionUpdateJob`: polls the gateway for a PROCESSING mirror
 * and records the state its payment status maps to. Its failure hook only
 * reports, so a failed poll leaves the mirror as it was.
 */
module FetchTransactionUpdate {
  import opened Wrappers
  import opened Php
  import opened Gateway
  import opened TransactionStateCodes
  import opened Failures
  import opened FetchTransactionUpdateException
  import opened Models
  import SendTransaction

  /** The decoding of the reply, shared by the corrected and the as-written poll. */
  function PollReply(reply: Reply, book: Codebook): (r: Result<TransactionState, FetchFailure>)
    ensures r.Ok? <==> Decode(reply, book).Ok?
    ensures r.Ok? ==> r.value == MakeFromPaymentStatusCode(Decode(reply, book).value.status)
    ensures r.Err? ==> r.error.tag in {StateTag(API_REQUEST_EXCEPTION), StateTag(UNEXPECTED_AUTH_CODE), StateTag(NO_ERROR_CODE_PROPERTY), StateTag(UNEXPECTED_ERROR_CODE)}
  {
    match Decode(reply, book)
    case Ok(d) => Ok(MakeFromPaymentStatusCode(d.status))
    case Err(RequestFailed(message)) => Err(ApiRequestException(message))
    case Err(UnknownAuthCode(code)) => Err(UnexpectedAuthCode(code))
    case Err(NoPaymentResult(body)) => Err(NoErrorCode(body))
    case Err(UnknownStatusCode(code)) => Err(UnexpectedErrorCode(code))
  }

  /**
   * The decisions of `handle`, with the reference guard testing the
   * mirror's remote reference: the state guard, the reference guard, then
   * the decoding of the reply into the new state.
   */
  function Poll(s: Status, reply: Reply, book: Codebook): (r: Result<TransactionState, FetchFailure>)
    ensures r.Ok? ==> r.value in GatewayOutcomes
    ensures r.Err? && r.error.tag == NoRemoteReference <==> s.stateCode == PROCESSING && Falsy(s.remoteReference)
    ensures r.Err? && r.error.tag == StateTag(STATE_NOT_ALLOWED) <==> s.stateCode != PROCESSING
  {
    if s.stateCode != PROCESSING then Err(StateNotAllowed(s.stateCode))
    else if Falsy(s.remoteReference) then Err(EmptyRemoteReference(s.remoteReference))
    else PollReply(reply, book)
  }

  /** The status after one attempt: a successful poll sets the state, a failed one changes nothing. */
  function Run(s: Status, reply: Reply, book: Codebook): (r: Status)
    ensures r != s ==> s.stateCode == PROCESSING && !Falsy(s.remoteReference)
  {
    match Poll(s, reply, book)
    case Ok(state) => s.(stateCode := state)
    case Err(_) => s
  }

  /**
   * `batch_reference` is not an attribute of the mirror model, so reading it
   * yields null for every mirror.
   */
  const BatchReference: Option<string> := None

  /**
   * `handle` as written: the reference guard tests `batch_reference`, and
   * the failure it raises names an enumeration case that does not exist.
   */
  function PollAsWritten(s: Status, reply: Reply, book: Codebook): (r: Result<TransactionState, JobError<FetchTag>>)
    ensures r.Err?
    ensures r.error.Unclassified? <==> s.stateCode == PROCESSING
  {
    if s.stateCode != PROCESSING then Err(Classified(StateNotAllowed(s.stateCode)))
    else if Falsy(BatchReference) then Err(EmptyRemoteReferenceAsWritten(s.remoteReference))
    else
      match PollReply(reply, book)
      case Ok(state) => Ok(state)
      case Err(f) => Err(Classified(f))
  }

  /** The status after one attempt as written: nothing is ever recorded. */
  function RunAsWritten(s: Status, reply: Reply, book: Codebook): (r: Status)
    ensures r == s
  {
    match PollAsWritten(s, reply, book)
    case Ok(state) => s.(stateCode := state)
    case Err(_) => s
  }

  /** As written, no poll ever succeeds, so no mirror ever leaves PROCESSING through polling. */
  lemma AsWrittenNeverPolls(s: Status, reply: Reply, book: Codebook)
    ensures PollAsWritten(s, reply, book).Err?
    ensures s.stateCode == PROCESSING ==> PollAsWritten(s, reply, book) == Err(Unclassified(UndefinedNoRemoteReference))
    ensures RunAsWritten(s, reply, book) == s
  {
  }

  /**
   * A mirror with reference "ref-123" whose payment the gateway reports
   * accepted: the corrected poll records PAID, the poll as written leaves it
   * PROCESSING.
   */
  lemma AsWrittenMissesPayment(book: Codebook, body: string)
    requires book.Valid()
    ensures var s := Unprocessed.(stateCode := PROCESSING, remoteReference := Some("ref-123"));
      var reply := Response(book.authValue(AUTH_SUCCESS), [PaymentResult(book.statusValue(PAYMENT_ACCEPTED), "", "ref-123")], body);
      Run(s, reply, book).stateCode == PAID && RunAsWritten(s, reply, book).stateCode == PROCESSING
  {
  }

  /** Only PROCESSING mirrors are polled; the others are refused before the gateway is asked. */
  lemma PollOnlyProcessing(s: Status, reply: Reply, book: Codebook)
    ensures s.stateCode != PROCESSING ==> Poll(s, reply, book) == Err(StateNotAllowed(s.stateCode))
    ensures Poll(s, reply, book).Ok? ==> s.stateCode == PROCESSING && !Falsy(s.remoteReference)
  {
  }

  /** A PROCESSING mirror without a usable remote reference is refused with the missing-reference failure. */
  lemma PollNeedsReference(s: Status, reply: Reply, book: Codebook)
    requires s.stateCode == PROCESSING && Falsy(s.remoteReference)
    ensures Poll(s, reply, book).Err? && Poll(s, reply, book).error.tag == NoRemoteReference
  {
  }

  /**
   * Polling and submitting read a reply the same way: for the same reply a
   * poll records the state a submission would have recorded, and both fail
   * on the same replies, with the same state tag and the same reason.
   */
  lemma PollAgreesWithSubmit(s: Status, reply: Reply, book: Codebook)
    requires s.stateCode == PROCESSING && !Falsy(s.remoteReference)
    ensures Poll(s, reply, book).Ok? <==> SendTransaction.Submit(LOCAL_UNPROCESSED, reply, book).Ok?
    ensures Poll(s, reply, book).Ok? ==>
      Poll(s, reply, book).value == SendTransaction.Run(Unprocessed, reply, book).stateCode
    ensures Poll(s, reply, book).Err? <==> SendTransaction.Submit(LOCAL_UNPROCESSED, reply, book).Err?
    ensures Poll(s, reply, book).Err? ==>
      Poll(s, reply, book).error.tag == StateTag(SendTransaction.Submit(LOCAL_UNPROCESSED, reply, book).error.tag) &&
      Poll(s, reply, book).error.reason == SendTransaction.Submit(LOCAL_UNPROCESSED, reply, book).error.reason
  {
  }

  /** A poll changes at most the state column. */
  lemma PollOnlyChangesState(s: Status, reply: Reply, book: Codebook)
    ensures Run(s, reply, book) == s.(stateCode := Run(s, reply, book).stateCode)
    ensures Run(s, reply, book).stateCode in GatewayOutcomes + {s.stateCode}
  {
  }

  /** Polling twice with the same reply is polling once. */
  lemma PollIdempotent(s: Status, reply: Reply, book: Codebook)
    ensures Run(Run(s, reply, book), reply, book) == Run(s, reply, book)
  {
  }

  /** The job for one mirror; its unique id for queue de-duplication is the mirror's id. */
  class FetchTransactionUpdateJob {
    const targetTransaction: Transaction

    constructor (targetTransaction: Transaction)
      ensures this.targetTransaction == targetTransaction
    {
      this.targetTransaction := targetTransaction;
    }

    /** `handle`: throws the failure `Poll` decides, or saves the new state. */
    method Handle(reply: Reply, book: Codebook) returns (error: Option<JobError<FetchTag>>)
      modifies targetTransaction
      ensures var polled := Poll(old(targetTransaction.CurrentStatus()), reply, book);
        (polled.Ok? ==> error.None? && targetTransaction.CurrentStatus() == old(targetTransaction.CurrentStatus()).(stateCode := polled.value)) &&
        (polled.Err? ==> error == Some(Classified(polled.error)) && unchanged(targetTransaction))
      ensures targetTransaction.deleted == old(targetTransaction.deleted)
    {
      if targetTransaction.stateCode != PROCESSING {
        return Some(Classified(StateNotAllowed(targetTransaction.stateCode)));
      }
      if Falsy(targetTransaction.remoteReference) {
        return Some(Classified(EmptyRemoteReference(targetTransaction.remoteReference)));
      }
      var polled := PollReply(reply, book);
      if polled.Err? {
        return Some(Classified(polled.error));
      }
      targetTransaction.Save(targetTransaction.CurrentStatus().(stateCode := polled.value));
      error := None;
    }

    /**
     * One attempt (the job is tried once): `handle`, then `failed` if it
     * threw; `failed` only reports the error, so the mirror keeps its status.
     */
    method Perform(reply: Reply, book: Codebook)
      modifies targetTransaction
      ensures targetTransaction.CurrentStatus() == Run(old(targetTransaction.CurrentStatus()), reply, book)
      ensures targetTransaction.deleted == old(targetTransaction.deleted)
    {
      var _ := Handle(reply, book);
    }
  }
}
