/**
 * `SendTransactionJob`: submits a LOCAL_UNPROCESSED mirror to the gateway
 * once and records the gateway's verdict on it; its failure hook records
 * why a submission did not happen.
 */
module SendTransaction {
  import opened Wrappers
  import opened Gateway
  import opened TransactionStateCodes
  import opened Failures
  import opened SendTransactionException
  import opened Models

  /**
   * The decisions of `handle` for a mirror in state `state` and the gateway
   * reply `reply`: the state guard, then the decoding of the reply.
   */
  function Submit(state: TransactionState, reply: Reply, book: Codebook): (r: Result<Decoded, SendFailure>)
    ensures r.Ok? <==> state == LOCAL_UNPROCESSED && Decode(reply, book).Ok?
    ensures r.Ok? ==> r.value == Decode(reply, book).value
    ensures r.Err? ==> r.error.tag in {STATE_NOT_ALLOWED, API_REQUEST_EXCEPTION, UNEXPECTED_AUTH_CODE, NO_ERROR_CODE_PROPERTY, UNEXPECTED_ERROR_CODE}
    ensures r.Err? && r.error.tag == STATE_NOT_ALLOWED <==> state != LOCAL_UNPROCESSED
  {
    if state != LOCAL_UNPROCESSED then Err(StateNotAllowed(state))
    else
      match Decode(reply, book)
      case Ok(d) => Ok(d)
      case Err(RequestFailed(message)) => Err(ApiRequestException(message))
      case Err(UnknownAuthCode(code)) => Err(UnexpectedAuthCode(code))
      case Err(NoPaymentResult(body)) => Err(NoErrorCode(body))
      case Err(UnknownStatusCode(code)) => Err(UnexpectedErrorCode(code))
  }

  /** The four columns `handle` assigns from a decoded reply. */
  function Apply(s: Status, d: Decoded): (r: Status)
    ensures r.stateCode in GatewayOutcomes && r.stateCodeReason == s.stateCodeReason
    ensures r.errorCode == Some(d.status) && r.remoteReference == Some(d.result.beepTransactionID)
  {
    s.(errorCode := Some(d.status),
       stateCode := MakeFromPaymentStatusCode(d.status),
       errorCodeDescription := Some(d.result.statusDescription),
       remoteReference := Some(d.result.beepTransactionID))
  }

  /** The two columns `failed` assigns. */
  function AfterFailure(s: Status, e: JobError<TransactionState>): (r: Status)
    ensures r == s.(stateCode := r.stateCode, stateCodeReason := r.stateCodeReason)
    ensures e.Classified? ==> r.stateCode == e.failure.tag && r.stateCodeReason == Some(e.failure.reason)
    ensures e.Unclassified? ==> r.stateCode == LOCAL_EXCEPTION && r.stateCodeReason == Some(e.message)
  {
    match e
    case Classified(f) => s.(stateCode := f.tag, stateCodeReason := Some(f.reason))
    case Unclassified(message) => s.(stateCode := LOCAL_EXCEPTION, stateCodeReason := Some(message))
  }

  /** The status after one attempt: `handle`, then `failed` if it threw. */
  function Run(s: Status, reply: Reply, book: Codebook): (r: Status)
    ensures r.stateCode != LOCAL_UNPROCESSED
    ensures r.stateCode == STATE_NOT_ALLOWED <==> s.stateCode != LOCAL_UNPROCESSED
  {
    match Submit(s.stateCode, reply, book)
    case Ok(d) => Apply(s, d)
    case Err(f) => AfterFailure(s, Classified(f))
  }

  /** Every state a send attempt can leave behind. */
  const SendOutcomes: set<TransactionState> :=
    GatewayOutcomes + {STATE_NOT_ALLOWED, API_REQUEST_EXCEPTION, UNEXPECTED_AUTH_CODE, NO_ERROR_CODE_PROPERTY, UNEXPECTED_ERROR_CODE}

  /**
   * A send attempt always ends in one of the send outcomes, and never back
   * in LOCAL_UNPROCESSED, so a mirror is not submitted twice.
   */
  lemma SendOutcomesOnly(s: Status, reply: Reply, book: Codebook)
    ensures Run(s, reply, book).stateCode in SendOutcomes
    ensures Run(s, reply, book).stateCode != LOCAL_UNPROCESSED
  {
  }

  /**
   * The gateway is consulted only from LOCAL_UNPROCESSED, and then the
   * outcome follows the reply: success exactly when the reply decodes, and
   * each decoding error has its own failure.
   */
  lemma SubmitDecides(state: TransactionState, reply: Reply, book: Codebook)
    ensures state != LOCAL_UNPROCESSED ==> Submit(state, reply, book) == Err(StateNotAllowed(state))
    ensures Submit(state, reply, book).Ok? <==> state == LOCAL_UNPROCESSED && Decode(reply, book).Ok?
    ensures state == LOCAL_UNPROCESSED && reply.TransportFailure? ==>
      Submit(state, reply, book) == Err(ApiRequestException(reply.message))
    ensures state == LOCAL_UNPROCESSED && reply.Response? && (forall a :: book.authValue(a) != reply.authStatusCode) ==>
      Submit(state, reply, book) == Err(UnexpectedAuthCode(reply.authStatusCode))
    ensures state == LOCAL_UNPROCESSED && reply.Response? && (exists a :: book.authValue(a) == reply.authStatusCode) && reply.results == [] ==>
      Submit(state, reply, book) == Err(NoErrorCode(reply.rawBody))
    ensures (&& state == LOCAL_UNPROCESSED && reply.Response? && (exists a :: book.authValue(a) == reply.authStatusCode)
             && reply.results != [] && (forall p :: book.statusValue(p) != reply.results[0].statusCode)) ==>
      Submit(state, reply, book) == Err(UnexpectedErrorCode(reply.results[0].statusCode))
  {
  }

  /**
   * A successful submission records the first payment result: its status
   * code, the state that code maps to, its description and the gateway's
   * reference; the reason column is left as it was.
   */
  lemma SuccessfulSubmission(s: Status, reply: Reply, book: Codebook)
    requires Submit(s.stateCode, reply, book).Ok?
    ensures var after := Run(s, reply, book);
      reply.Response? && reply.results != [] &&
      after.errorCode.Some? && book.statusValue(after.errorCode.value) == reply.results[0].statusCode &&
      after.stateCode == MakeFromPaymentStatusCode(after.errorCode.value) &&
      after.errorCodeDescription == Some(reply.results[0].statusDescription) &&
      after.remoteReference == Some(reply.results[0].beepTransactionID) &&
      after.stateCodeReason == s.stateCodeReason
  {
  }

  /** A failed attempt records its tag and reason and leaves the gateway columns alone. */
  lemma FailureKeepsGatewayColumns(s: Status, reply: Reply, book: Codebook)
    requires Submit(s.stateCode, reply, book).Err?
    ensures var after, f := Run(s, reply, book), Submit(s.stateCode, reply, book).error;
      after == s.(stateCode := f.tag, stateCodeReason := Some(f.reason))
  {
  }

  /**
   * A second attempt on a mirror is refused before the gateway is asked,
   * whatever it replies. It keeps the gateway columns and the remote
   * reference the first attempt recorded; the state and reason become
   * STATE_NOT_ALLOWED and its reason.
   */
  lemma NeverResubmitted(s: Status, first: Reply, second: Reply, book: Codebook)
    ensures var once := Run(s, first, book);
      var twice := Run(once, second, book);
      Submit(once.stateCode, second, book) == Err(StateNotAllowed(once.stateCode)) &&
      twice.errorCode == once.errorCode && twice.errorCodeDescription == once.errorCodeDescription &&
      twice.remoteReference == once.remoteReference && twice.stateCode == STATE_NOT_ALLOWED &&
      twice.stateCodeReason == Some(StateNotAllowed(once.stateCode).reason)
  {
  }

  /**
   * Which recognised auth code the gateway answers with does not matter:
   * AUTH_FAILED or GENERIC_FAILURE with a payment result is recorded as the
   * result's status says.
   */
  lemma AuthCodeDoesNotDecide(s: Status, a: AuthCode, b: AuthCode, results: seq<PaymentResult>, body: string, book: Codebook)
    ensures Run(s, Response(book.authValue(a), results, body), book) == Run(s, Response(book.authValue(b), results, body), book)
  {
  }

  /**
   * The gateway accepts a payment for later settlement: the mirror goes to
   * PROCESSING with the gateway's reference, ready to be polled.
   */
  lemma PostedAndPendingRecorded(book: Codebook, description: string, body: string)
    requires book.Valid()
    ensures var reply := Response(book.authValue(AUTH_SUCCESS),
                                  [PaymentResult(book.statusValue(POSTED_AND_PENDING_ACKNOWLEDGEMENT), description, "ref-123")], body);
      var after := Run(Unprocessed, reply, book);
      after.stateCode == PROCESSING && after.errorCode == Some(POSTED_AND_PENDING_ACKNOWLEDGEMENT) &&
      after.remoteReference == Some("ref-123")
  {
  }

  /** The job for one mirror; its unique id for queue de-duplication is the mirror's id. */
  class SendTransactionJob {
    const targetTransaction: Transaction

    constructor (targetTransaction: Transaction)
      ensures this.targetTransaction == targetTransaction
    {
      this.targetTransaction := targetTransaction;
    }

    /** `handle`: throws the failure `Submit` decides, or saves what the reply says. */
    method Handle(reply: Reply, book: Codebook) returns (error: Option<JobError<TransactionState>>)
      modifies targetTransaction
      ensures var submitted := Submit(old(targetTransaction.stateCode), reply, book);
        (submitted.Ok? ==> error.None? && targetTransaction.CurrentStatus() == Apply(old(targetTransaction.CurrentStatus()), submitted.value)) &&
        (submitted.Err? ==> error == Some(Classified(submitted.error)) && unchanged(targetTransaction))
      ensures targetTransaction.deleted == old(targetTransaction.deleted)
    {
      if targetTransaction.stateCode != LOCAL_UNPROCESSED {
        return Some(Classified(StateNotAllowed(targetTransaction.stateCode)));
      }
      var decoded := Decode(reply, book);
      if decoded.Err? {
        var failure := match decoded.error
          case RequestFailed(message) => ApiRequestException(message)
          case UnknownAuthCode(code) => UnexpectedAuthCode(code)
          case NoPaymentResult(body) => NoErrorCode(body)
          case UnknownStatusCode(code) => UnexpectedErrorCode(code);
        return Some(Classified(failure));
      }
      var d := decoded.value;
      targetTransaction.Save(targetTransaction.CurrentStatus().(
        errorCode := Some(d.status),
        stateCode := MakeFromPaymentStatusCode(d.status),
        errorCodeDescription := Some(d.result.statusDescription),
        remoteReference := Some(d.result.beepTransactionID)));
      error := None;
    }

    /** `failed`: a classified failure records its tag and reason, anything else LOCAL_EXCEPTION and its message. */
    method Failed(e: JobError<TransactionState>)
      modifies targetTransaction
      ensures targetTransaction.CurrentStatus() == AfterFailure(old(targetTransaction.CurrentStatus()), e)
      ensures targetTransaction.deleted == old(targetTransaction.deleted)
    {
      match e
      case Classified(f) =>
        targetTransaction.Save(targetTransaction.CurrentStatus().(stateCode := f.tag, stateCodeReason := Some(f.reason)));
      case Unclassified(message) =>
        targetTransaction.Save(targetTransaction.CurrentStatus().(stateCode := LOCAL_EXCEPTION, stateCodeReason := Some(message)));
    }

    /** One attempt (the job is tried once): `handle`, then `failed` if it threw. */
    method Perform(reply: Reply, book: Codebook)
      modifies targetTransaction
      ensures targetTransaction.CurrentStatus() == Run(old(targetTransaction.CurrentStatus()), reply, book)
      ensures targetTransaction.deleted == old(targetTransaction.deleted)
    {
      var error := Handle(reply, book);
      if error.Some? {
        Failed(error.value);
      }
    }
  }
}
