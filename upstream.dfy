/**
 * The host application's side of the boundary: the upstream transaction a
 * mirror is created from, its sender and recipient, the host's catalogue of
 * mobile-money providers, and the processing item whose state the create job
 * reports back to. Only what the core reads or writes is modelled.
 */
module Upstream {
  import opened Wrappers

  /** The cases of the host's processing-item state enum that this core writes. */
  datatype ProcessingItemState =
    | PENDING
    | MANUAL_RECONCILIATION_REQUIRED
    | EXCEPTION
    | PROVIDER_PENDING
    | PROCESSED
    | PROVIDER_NOT_ACCEPTING_TRANSACTIONS
    | PROVIDER_TIMEOUT
    | TRANSACTION_AMOUNT_INVALID
    | DUPLICATE_TARGET_TRANSACTION
    | NO_TRANSACTION
    | NO_TRANSACTION_SENDER
    | NO_TRANSACTION_RECIPIENT
    | TRANSACTION_TYPE_NOT_ALLOWED
    | TRANSACTION_STATE_NOT_ALLOWED
    | NO_TRANSACTION_RECIPIENT_MOBILE_PROVIDER
    | NO_TRANSACTION_RECIPIENT_PHONE_NUMBER
    | NO_TARGET_MOBILE_PROVIDER

  /** The upstream transaction's type: mobile, or another type with its backing value. */
  datatype TransactionType = MOBILE | OtherType(value: string)

  /** The upstream transaction's state: processing, or another state with its backing value. */
  datatype UpstreamState = PROCESSING | OtherState(value: string)

  /** A currency and the number of decimal places of its minor unit (2 for NGN). */
  datatype Currency = Currency(code: string, subunit: nat)

  /** An amount in minor units of its currency, as the money library holds it. */
  datatype Money = Money(minor: int, currency: Currency)

  datatype Sender = Sender(id: string)

  /** `className` is the runtime class of the host's recipient model, which reasons quote. */
  datatype Recipient = Recipient(
    className: string,
    id: string,
    mobileProvider: Option<string>,
    phoneNumber: Option<string>,
    countryCode: string)

  datatype UpstreamTransaction = UpstreamTransaction(
    className: string,
    id: string,
    kind: TransactionType,
    state: UpstreamState,
    sender: Option<Sender>,
    recipient: Option<Recipient>,
    outputAmount: Money,
    referenceForHumans: string)

  /** A row of the host's mobile-money provider table, keyed by (code, country). */
  datatype HostProvider = HostProvider(className: string, id: string, code: string, countryCode: string, deleted: bool)

  /**
   * The host's processing item: its id, the upstream transaction it carries
   * (or none), and the state the host keeps for it, which the create job's
   * failure hook overwrites.
   */
  class ProcessingItem {
    const className: string
    const id: string
    const transaction: Option<UpstreamTransaction>
    var stateCode: ProcessingItemState
    var stateCodeReason: string

    constructor (className: string, id: string, transaction: Option<UpstreamTransaction>, stateCode: ProcessingItemState)
      ensures this.className == className && this.id == id && this.transaction == transaction
      ensures this.stateCode == stateCode && this.stateCodeReason == ""
    {
      this.className := className;
      this.id := id;
      this.transaction := transaction;
      this.stateCode := stateCode;
      this.stateCodeReason := "";
    }

    /** `updateStateCode($state, $reason)`. */
    method UpdateStateCode(state: ProcessingItemState, reason: string)
      modifies this
      ensures stateCode == state && stateCodeReason == reason
    {
      stateCode := state;
      stateCodeReason := reason;
    }
  }
}
