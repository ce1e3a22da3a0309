/**
 * `CreateTransactionException`: why a mirror could not be created, tagged
 * with the state the host's processing item is to take. Each named
 * constructor fixes the tag and quotes the offending entity in the reason.
 */
module CreateTransactionException {
  import opened Failures
  import opened Upstream
  import opened Php

  type CreateFailure = Failure<ProcessingItemState>

  function NoTransaction(itemClass: string, itemId: string): (f: CreateFailure)
    ensures f.tag == NO_TRANSACTION && Embeds(f.reason, itemId)
  {
    EmbedsMiddle(itemClass + " `", itemId, "` transaction not found");
    Failure(NO_TRANSACTION, itemClass + " `" + itemId + "` transaction not found")
  }

  function NoTransactionSender(transactionClass: string, transactionId: string): (f: CreateFailure)
    ensures f.tag == NO_TRANSACTION_SENDER && Embeds(f.reason, transactionId)
  {
    EmbedsMiddle(transactionClass + " `", transactionId, "` sender not found");
    Failure(NO_TRANSACTION_SENDER, transactionClass + " `" + transactionId + "` sender not found")
  }

  function NoTransactionRecipient(transactionClass: string, transactionId: string): (f: CreateFailure)
    ensures f.tag == NO_TRANSACTION_RECIPIENT && Embeds(f.reason, transactionId)
  {
    EmbedsMiddle(transactionClass + " `", transactionId, "` recipient not found");
    Failure(NO_TRANSACTION_RECIPIENT, transactionClass + " `" + transactionId + "` recipient not found")
  }

  /** `typeValue` is the backing value of the upstream transaction's type. */
  function TypeNotAllowed(transactionClass: string, typeValue: string): (f: CreateFailure)
    ensures f.tag == TRANSACTION_TYPE_NOT_ALLOWED && Embeds(f.reason, "type `" + typeValue + "` not allowed")
  {
    EmbedsEnd(transactionClass + " ", "type `" + typeValue + "` not allowed");
    Failure(TRANSACTION_TYPE_NOT_ALLOWED, transactionClass + " " + ("type `" + typeValue + "` not allowed"))
  }

  /** `stateValue` is the backing value of the upstream transaction's state. */
  function StateNotAllowed(transactionClass: string, stateValue: string): (f: CreateFailure)
    ensures f.tag == TRANSACTION_STATE_NOT_ALLOWED && Embeds(f.reason, "state_code `" + stateValue + "` not allowed")
  {
    EmbedsEnd(transactionClass + " ", "state_code `" + stateValue + "` not allowed");
    Failure(TRANSACTION_STATE_NOT_ALLOWED, transactionClass + " " + ("state_code `" + stateValue + "` not allowed"))
  }

  /** `existingId` is the id of the local record that already mirrors the upstream transaction. */
  function DuplicateTargetTransaction(existingId: string): (f: CreateFailure)
    ensures f.tag == DUPLICATE_TARGET_TRANSACTION
    ensures Embeds(f.reason, "cannot be created twice, `" + existingId + "`")
  {
    EmbedsEnd(TransactionClass + " ", "cannot be created twice, `" + existingId + "`");
    Failure(DUPLICATE_TARGET_TRANSACTION, TransactionClass + " " + ("cannot be created twice, `" + existingId + "`"))
  }

  function EmptyMobileProvider(recipientClass: string, recipientId: string): (f: CreateFailure)
    ensures f.tag == NO_TRANSACTION_RECIPIENT_MOBILE_PROVIDER && Embeds(f.reason, recipientId)
  {
    EmbedsMiddle(recipientClass + " `", recipientId, "` has no `mobile_provider`");
    Failure(NO_TRANSACTION_RECIPIENT_MOBILE_PROVIDER, recipientClass + " `" + recipientId + "` has no `mobile_provider`")
  }

  function EmptyPhoneNumber(recipientClass: string, recipientId: string): (f: CreateFailure)
    ensures f.tag == NO_TRANSACTION_RECIPIENT_PHONE_NUMBER && Embeds(f.reason, recipientId)
  {
    EmbedsMiddle(recipientClass + " `", recipientId, "` has no `phone_number`");
    Failure(NO_TRANSACTION_RECIPIENT_PHONE_NUMBER, recipientClass + " `" + recipientId + "` has no `phone_number`")
  }

  /** `providerModel` is the host's configured provider model class. */
  function NoMobileProvider(providerModel: string, recipientClass: string, recipientId: string): (f: CreateFailure)
    ensures f.tag == NO_TRANSACTION_RECIPIENT_MOBILE_PROVIDER
    ensures Embeds(f.reason, providerModel) && Embeds(f.reason, recipientId)
  {
    var reason := "No " + providerModel + " for " + recipientClass + " `" + recipientId + "`";
    EmbedsMiddle("No ", providerModel, " for " + recipientClass + " `" + recipientId + "`");
    assert reason == "No " + providerModel + (" for " + recipientClass + " `" + recipientId + "`");
    EmbedsMiddle("No " + providerModel + " for " + recipientClass + " `", recipientId, "`");
    Failure(NO_TRANSACTION_RECIPIENT_MOBILE_PROVIDER, reason)
  }

  /** `hostProviderId` is the id of the host provider that has no entry in the local directory. */
  function NoTargetMobileProvider(hostProviderClass: string, hostProviderId: string): (f: CreateFailure)
    ensures f.tag == NO_TARGET_MOBILE_PROVIDER && Embeds(f.reason, hostProviderId)
  {
    EmbedsMiddle("No " + MobileMoneyProviderClass + " for " + hostProviderClass + " `", hostProviderId, "`");
    Failure(NO_TARGET_MOBILE_PROVIDER,
            "No " + MobileMoneyProviderClass + " for " + hostProviderClass + " `" + hostProviderId + "`")
  }

  /**
   * The two failures that share the mobile-provider tag are told apart by
   * their reasons, for every recipient and every pair of class names.
   */
  lemma MobileProviderReasonsDiffer(providerModel: string, recipientClass: string, recipientId: string)
    requires ClassName(providerModel) && ClassName(recipientClass)
    ensures EmptyMobileProvider(recipientClass, recipientId).tag == NoMobileProvider(providerModel, recipientClass, recipientId).tag
    ensures EmptyMobileProvider(recipientClass, recipientId).reason != NoMobileProvider(providerModel, recipientClass, recipientId).reason
  {
    var empty := EmptyMobileProvider(recipientClass, recipientId).reason;
    var missing := NoMobileProvider(providerModel, recipientClass, recipientId).reason;
    var n := |recipientClass|;
    // `empty` has its first space at index n, `missing` at index 2.
    assert empty[n] == ' ';
    assert missing[2] == ' ';
    if n < 2 {
      assert missing[n] != ' ';
    } else if n > 2 {
      assert empty[2] == recipientClass[2] != ' ';
    } else {
      assert empty[3] == '`';
      assert missing[3] != '`' by {
        if providerModel != [] {
          assert missing[3] == providerModel[0];
        }
      }
    }
  }
}
