/**
 * `CreateMobileMoneyTransactionJob`: turns a host processing item into a
 * local mirror in state LOCAL_UNPROCESSED, or refuses it with the first
 * failing guard, which the failure hook reports to the processing item.
 */
module CreateMobileMoneyTransaction {
  import opened Wrappers
  import opened Php
  import opened Upstream
  import opened Failures
  import opened CreateTransactionException
  import opened Models

  /**
   * What the job reads besides the processing item: the host's provider
   * model class and its rows, the local provider directory and the two
   * configured sender values (absent when not configured).
   */
  datatype Environment = Environment(
    hostProviderModel: string,
    hostProviders: seq<HostProvider>,
    directory: seq<MobileMoneyProvider>,
    senderName: Option<string>,
    senderPhoneNumber: Option<string>)

  /** The first live host provider with this code in this country. */
  function FindHostProvider(providers: seq<HostProvider>, code: string, countryCode: string): (r: Option<HostProvider>)
    ensures r.Some? ==> r.value in providers && !r.value.deleted && r.value.code == code && r.value.countryCode == countryCode
    ensures r.None? <==> forall p :: p in providers && !p.deleted ==> p.code != code || p.countryCode != countryCode
  {
    if providers == [] then None
    else if !providers[0].deleted && providers[0].code == code && providers[0].countryCode == countryCode then Some(providers[0])
    else FindHostProvider(providers[1..], code, countryCode)
  }

  /** The first live directory entry linked to the host provider `hostProviderId`. */
  function FindDirectoryEntry(directory: seq<MobileMoneyProvider>, hostProviderId: string): (r: Option<MobileMoneyProvider>)
    ensures r.Some? ==> r.value in directory && !r.value.deleted && r.value.mobileMoneyProviderId == hostProviderId
    ensures r.None? <==> forall e :: e in directory && !e.deleted ==> e.mobileMoneyProviderId != hostProviderId
  {
    if directory == [] then None
    else if !directory[0].deleted && directory[0].mobileMoneyProviderId == hostProviderId then Some(directory[0])
    else FindDirectoryEntry(directory[1..], hostProviderId)
  }

  /** The first live mirror of the upstream transaction `transactionId`. */
  function FindMirror(mirrors: seq<Mirror>, transactionId: string): (r: Option<Mirror>)
    ensures r.Some? ==> r.value in mirrors && r.value.transactionId == transactionId
    ensures r.None? <==> forall m :: m in mirrors ==> m.transactionId != transactionId
  {
    if mirrors == [] then None
    else if mirrors[0].transactionId == transactionId then Some(mirrors[0])
    else FindMirror(mirrors[1..], transactionId)
  }

  function Pow10(n: nat): (r: nat)
    ensures r >= 1
  {
    if n == 0 then 1 else 10 * Pow10(n - 1)
  }

  /**
   * The decimal-formatted amount, stored as an exact number: the minor
   * amount shifted by the currency's subunit (201 kobo is 2.01 NGN).
   */
  function DecimalAmount(m: Money): (r: real)
    ensures r * (Pow10(m.currency.subunit) as real) == m.minor as real
  {
    (m.minor as real) / (Pow10(m.currency.subunit) as real)
  }

  lemma DecimalAmountExample()
    ensures DecimalAmount(Money(201, Currency("NGN", 2))) == 2.01
  {
  }

  /** Everything the guards of `handle` look at. */
  datatype CreateInput = CreateInput(
    itemClass: string,
    itemId: string,
    transaction: Option<UpstreamTransaction>,
    mirrors: seq<Mirror>,
    env: Environment)

  /**
   * The guards of `handle` in source order, then the columns of the new
   * mirror. The first failing guard decides the failure.
   */
  function Admit(x: CreateInput): (r: Result<Columns, CreateFailure>)
    ensures r.Ok? ==>
      && x.transaction.Some? && x.transaction.value.kind == MOBILE && x.transaction.value.state == PROCESSING
      && FindMirror(x.mirrors, x.transaction.value.id).None?
      && r.value.transactionId == x.transaction.value.id && r.value.processingItemId == x.itemId
  {
    if x.transaction.None? then Err(NoTransaction(x.itemClass, x.itemId))
    else
      var t := x.transaction.value;
      if t.kind != MOBILE then Err(TypeNotAllowed(t.className, t.kind.value))
      else if t.state != PROCESSING then Err(StateNotAllowed(t.className, t.state.value))
      else if FindMirror(x.mirrors, t.id).Some? then Err(DuplicateTargetTransaction(FindMirror(x.mirrors, t.id).value.id))
      else if t.sender.None? then Err(NoTransactionSender(t.className, t.id))
      else if t.recipient.None? then Err(NoTransactionRecipient(t.className, t.id))
      else
        var p := t.recipient.value;
        if Falsy(p.mobileProvider) then Err(EmptyMobileProvider(p.className, p.id))
        else if Falsy(p.phoneNumber) then Err(EmptyPhoneNumber(p.className, p.id))
        else
          match FindHostProvider(x.env.hostProviders, p.mobileProvider.value, p.countryCode)
          case None => Err(NoMobileProvider(x.env.hostProviderModel, p.className, p.id))
          case Some(host) =>
            match FindDirectoryEntry(x.env.directory, host.id)
            case None => Err(NoTargetMobileProvider(host.className, host.id))
            case Some(entry) =>
              Ok(Columns(
                transactionId := t.id,
                processingItemId := x.itemId,
                reference := t.referenceForHumans,
                countryCode := p.countryCode,
                currencyCode := t.outputAmount.currency.code,
                amount := DecimalAmount(t.outputAmount),
                serviceCode := entry.code,
                productCode := None,
                senderName := Interpolate(x.env.senderName),
                senderPhoneNumber := Interpolate(x.env.senderPhoneNumber),
                recipientPhoneNumber := p.phoneNumber.value))
  }

  /*
   * An independent statement of the same guards: ten checks, each stated on
   * its own, and the order in which the job runs them.
   */

  datatype Check =
    | HasTransaction
    | IsMobile
    | IsProcessing
    | NotYetMirrored
    | HasSender
    | HasRecipient
    | HasMobileProvider
    | HasPhoneNumber
    | HostProviderKnown
    | DirectoryEntryKnown

  function Rank(c: Check): nat {
    match c
    case HasTransaction => 0
    case IsMobile => 1
    case IsProcessing => 2
    case NotYetMirrored => 3
    case HasSender => 4
    case HasRecipient => 5
    case HasMobileProvider => 6
    case HasPhoneNumber => 7
    case HostProviderKnown => 8
    case DirectoryEntryKnown => 9
  }

  /** The recipient's provider code, when the transaction has a recipient that names one. */
  predicate NamesProvider(x: CreateInput) {
    x.transaction.Some? && x.transaction.value.recipient.Some? &&
    !Falsy(x.transaction.value.recipient.value.mobileProvider)
  }

  function HostOf(x: CreateInput): Option<HostProvider>
    requires NamesProvider(x)
  {
    var p := x.transaction.value.recipient.value;
    FindHostProvider(x.env.hostProviders, p.mobileProvider.value, p.countryCode)
  }

  /** Whether a check passes; a check whose subject is missing passes vacuously. */
  predicate Holds(c: Check, x: CreateInput) {
    var present := x.transaction.Some?;
    match c
    case HasTransaction => present
    case IsMobile => present ==> x.transaction.value.kind == MOBILE
    case IsProcessing => present ==> x.transaction.value.state == PROCESSING
    case NotYetMirrored => present ==> forall m :: m in x.mirrors ==> m.transactionId != x.transaction.value.id
    case HasSender => present ==> x.transaction.value.sender.Some?
    case HasRecipient => present ==> x.transaction.value.recipient.Some?
    case HasMobileProvider => present && x.transaction.value.recipient.Some? ==> NamesProvider(x)
    case HasPhoneNumber =>
      present && x.transaction.value.recipient.Some? ==> !Falsy(x.transaction.value.recipient.value.phoneNumber)
    case HostProviderKnown => NamesProvider(x) ==> HostOf(x).Some?
    case DirectoryEntryKnown =>
      NamesProvider(x) && HostOf(x).Some? ==>
        exists e :: e in x.env.directory && !e.deleted && e.mobileMoneyProviderId == HostOf(x).value.id
  }

  /** The failure a check raises when it fails. */
  function Rejection(c: Check, x: CreateInput): CreateFailure
    requires !Holds(c, x)
  {
    var t := x.transaction;
    match c
    case HasTransaction => NoTransaction(x.itemClass, x.itemId)
    case IsMobile => TypeNotAllowed(t.value.className, t.value.kind.value)
    case IsProcessing => StateNotAllowed(t.value.className, t.value.state.value)
    case NotYetMirrored => DuplicateTargetTransaction(FindMirror(x.mirrors, t.value.id).value.id)
    case HasSender => NoTransactionSender(t.value.className, t.value.id)
    case HasRecipient => NoTransactionRecipient(t.value.className, t.value.id)
    case HasMobileProvider => EmptyMobileProvider(t.value.recipient.value.className, t.value.recipient.value.id)
    case HasPhoneNumber => EmptyPhoneNumber(t.value.recipient.value.className, t.value.recipient.value.id)
    case HostProviderKnown =>
      NoMobileProvider(x.env.hostProviderModel, t.value.recipient.value.className, t.value.recipient.value.id)
    case DirectoryEntryKnown => NoTargetMobileProvider(HostOf(x).value.className, HostOf(x).value.id)
  }

  /** The first failing check, in the job's order, decides the failure. */
  lemma FirstFailingCheckDecides(x: CreateInput, c: Check)
    requires !Holds(c, x)
    requires forall d :: Rank(d) < Rank(c) ==> Holds(d, x)
    ensures Admit(x) == Err(Rejection(c, x))
  {
    assert Rank(HasTransaction) < Rank(c) ==> Holds(HasTransaction, x);
    assert Rank(IsMobile) < Rank(c) ==> Holds(IsMobile, x);
    assert Rank(IsProcessing) < Rank(c) ==> Holds(IsProcessing, x);
    assert Rank(NotYetMirrored) < Rank(c) ==> Holds(NotYetMirrored, x);
    assert Rank(HasSender) < Rank(c) ==> Holds(HasSender, x);
    assert Rank(HasRecipient) < Rank(c) ==> Holds(HasRecipient, x);
    assert Rank(HasMobileProvider) < Rank(c) ==> Holds(HasMobileProvider, x);
    assert Rank(HasPhoneNumber) < Rank(c) ==> Holds(HasPhoneNumber, x);
    assert Rank(HostProviderKnown) < Rank(c) ==> Holds(HostProviderKnown, x);
  }

  /** A mirror is admitted exactly when every check passes. */
  lemma AdmittedIffAllChecksPass(x: CreateInput)
    ensures Admit(x).Ok? <==> forall c :: Holds(c, x)
  {
    if Admit(x).Ok? {
      forall c
        ensures Holds(c, x)
      {
      }
    }
    if forall c :: Holds(c, x) {
      assert Holds(HasTransaction, x) && Holds(IsMobile, x) && Holds(IsProcessing, x);
      assert Holds(NotYetMirrored, x) && Holds(HasSender, x) && Holds(HasRecipient, x);
      assert Holds(HasMobileProvider, x) && Holds(HasPhoneNumber, x);
      assert Holds(HostProviderKnown, x) && Holds(DirectoryEntryKnown, x);
    }
  }

  /** A live mirror of the same upstream transaction blocks creation, whatever else holds. */
  lemma DuplicateRejected(x: CreateInput, existing: Mirror)
    requires x.transaction.Some? && x.transaction.value.kind == MOBILE && x.transaction.value.state == PROCESSING
    requires existing in x.mirrors && existing.transactionId == x.transaction.value.id
    ensures Admit(x).Err? && Admit(x).error.tag == DUPLICATE_TARGET_TRANSACTION
  {
  }

  /**
   * An admitted mirror copies the upstream transaction, the processing item
   * and the recipient, takes its service code from a live directory entry
   * linked to a live host provider with the recipient's provider code and
   * country, its amount from the output amount and its sender from
   * configuration, and has no product code.
   */
  lemma AdmittedColumns(x: CreateInput)
    requires Admit(x).Ok?
    ensures var cols, t := Admit(x).value, x.transaction.value;
      var p := t.recipient.value;
      cols.transactionId == t.id && cols.processingItemId == x.itemId &&
      cols.reference == t.referenceForHumans && cols.countryCode == p.countryCode &&
      cols.currencyCode == t.outputAmount.currency.code &&
      cols.amount * (Pow10(t.outputAmount.currency.subunit) as real) == t.outputAmount.minor as real &&
      Some(cols.recipientPhoneNumber) == p.phoneNumber && !Falsy(p.phoneNumber) &&
      cols.productCode.None? &&
      cols.senderName == Interpolate(x.env.senderName) &&
      cols.senderPhoneNumber == Interpolate(x.env.senderPhoneNumber) &&
      exists host, entry ::
        host in x.env.hostProviders && !host.deleted && Some(host.code) == p.mobileProvider &&
        host.countryCode == p.countryCode &&
        entry in x.env.directory && !entry.deleted && entry.mobileMoneyProviderId == host.id &&
        cols.serviceCode == entry.code
  {
  }

  /**
   * The job. Its unique id for queue de-duplication is the processing item's
   * id; `Perform` is one attempt (the job is tried once): `handle`, then
   * `failed` if `handle` threw.
   */
  class CreateMobileMoneyTransactionJob {
    const processingItem: ProcessingItem

    constructor (processingItem: ProcessingItem)
      ensures this.processingItem == processingItem
    {
      this.processingItem := processingItem;
    }

    function Input(mirrors: seq<Mirror>, env: Environment): CreateInput {
      CreateInput(processingItem.className, processingItem.id, processingItem.transaction, mirrors, env)
    }

    /**
     * `handle`: runs the guards against the live mirrors and inserts the
     * admitted mirror with id `newId`. A refused insert is an error the job
     * does not classify.
     */
    method Handle(store: TransactionStore, env: Environment, newId: string) returns (error: Option<JobError<ProcessingItemState>>)
      requires store.Valid()
      modifies store
      ensures store.Valid()
      ensures var admitted := Admit(Input(old(store.Mirrors()), env));
        (admitted.Err? ==> error == Some(Classified(admitted.error)) && store.rows == old(store.rows)) &&
        (admitted.Ok? && Collides(old(store.rows), newId, admitted.value) ==>
          error == Some(Unclassified(UniqueViolation)) && store.rows == old(store.rows)) &&
        (admitted.Ok? && !Collides(old(store.rows), newId, admitted.value) ==>
          error.None? && |store.rows| == |old(store.rows)| + 1 && store.rows[..|old(store.rows)|] == old(store.rows) &&
          var t := store.rows[|old(store.rows)|];
          fresh(t) && t.id == newId && t.columns == admitted.value && t.CurrentStatus() == Unprocessed && !t.deleted)
    {
      var admitted := Admit(Input(store.Mirrors(), env));
      if admitted.Err? {
        return Some(Classified(admitted.error));
      }
      var t := store.Insert(newId, admitted.value, Unprocessed);
      if t == null {
        return Some(Unclassified(UniqueViolation));
      }
      assert store.rows[..|store.rows| - 1] == old(store.rows);
      error := None;
    }

    /** `failed`: a classified failure reports its tag and reason, anything else EXCEPTION and its message. */
    method Failed(e: JobError<ProcessingItemState>)
      modifies processingItem
      ensures e.Classified? ==> processingItem.stateCode == e.failure.tag && processingItem.stateCodeReason == e.failure.reason
      ensures e.Unclassified? ==> processingItem.stateCode == EXCEPTION && processingItem.stateCodeReason == e.message
    {
      match e
      case Classified(f) => processingItem.UpdateStateCode(f.tag, f.reason);
      case Unclassified(m) => processingItem.UpdateStateCode(EXCEPTION, m);
    }

    /** One attempt: on success the processing item is untouched; otherwise it records why. */
    method Perform(store: TransactionStore, env: Environment, newId: string)
      requires store.Valid()
      modifies store, processingItem
      ensures store.Valid()
      ensures var admitted := Admit(Input(old(store.Mirrors()), env));
        (admitted.Err? ==>
          store.rows == old(store.rows) &&
          processingItem.stateCode == admitted.error.tag && processingItem.stateCodeReason == admitted.error.reason) &&
        (admitted.Ok? && Collides(old(store.rows), newId, admitted.value) ==>
          store.rows == old(store.rows) &&
          processingItem.stateCode == EXCEPTION && processingItem.stateCodeReason == UniqueViolation) &&
        (admitted.Ok? && !Collides(old(store.rows), newId, admitted.value) ==>
          |store.rows| == |old(store.rows)| + 1 && store.rows[..|old(store.rows)|] == old(store.rows) &&
          store.rows[|old(store.rows)|].columns == admitted.value &&
          store.rows[|old(store.rows)|].CurrentStatus() == Unprocessed &&
          unchanged(processingItem))
    {
      var error := Handle(store, env, newId);
      if error.Some? {
        Failed(error.value);
      }
    }
  }
}
