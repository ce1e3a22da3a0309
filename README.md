# Tingg payment lifecycle, modelled in Dafny

This project models the payment-lifecycle core of the Tingg mobile-money
service package (`glocurrency/tingg-service`), a Laravel package that
mirrors a host application's mobile-money payments into its own
`tingg_transactions` table and drives them through the Tingg gateway:

- **Create** (`CreateMobileMoneyTransactionJob`): a host processing item is
  checked by ten ordered guards. The first failing guard decides the
  failure, which the job's `failed` hook writes onto the processing item.
  If every guard passes, one mirror is inserted in `LOCAL_UNPROCESSED`.
- **Submit** (`SendTransactionJob`): a `LOCAL_UNPROCESSED` mirror is posted
  to the gateway once. The decoded reply sets its error code, state,
  description and remote reference. A failure's (tag, reason) is persisted
  by `failed`.
- **Poll** (`FetchTransactionUpdateJob`): a `PROCESSING` mirror with a
  remote reference is polled. Only its state changes. A failed poll is only
  reported.
- **Dispatch** (`tingg:fetch-update`): one poll job per live `PROCESSING`
  mirror, or a "nothing unfinished" report.
- **Status translation** (`TransactionStateCodeEnum`): the gateway's auth and
  payment-status codes map to local states, and local states map to the
  host's processing-item states.
- **Failures**: the three exception classes are modelled as values
  `Failure(tag, reason)`. The exception message is the reason itself, so
  the model keeps one field for both.

Module layout, one file per module:

| file | module | models |
|---|---|---|
| `wrappers.dfy` | `Wrappers` | `Option`, `Result` |
| `php.dfy` | `Php` | PHP falsiness, string interpolation of null, backed-enum `tryFrom`, substring containment |
| `gateway.dfy` | `Gateway` | the gateway client's auth and payment-status code enums, their backing values (`Codebook`), the reply, and the decoding both jobs share |
| `upstream.dfy` | `Upstream` | the host side: upstream transaction, sender, recipient, host provider rows, the processing item |
| `transaction_state_codes.dfy` | `TransactionStateCodes` | the 15-case local state enum and its three translations |
| `failures.dfy` | `Failures` | `Failure`, `JobError`, the class names and reason texts shared by the exception classes |
| `create_transaction_exception.dfy` | `CreateTransactionException` | ten named constructors |
| `send_transaction_exception.dfy` | `SendTransactionException` | five named constructors |
| `fetch_transaction_update_exception.dfy` | `FetchTransactionUpdateException` | six named constructors, the fetch tag |
| `models.dfy` | `Models` | the `Transaction` row (a class), the `MobileMoneyProvider` directory row, the table (a class) |
| `create_mobile_money_transaction_job.dfy` | `CreateMobileMoneyTransaction` | the create job |
| `send_transaction_job.dfy` | `SendTransaction` | the submit job |
| `fetch_transaction_update_job.dfy` | `FetchTransactionUpdate` | the poll job |
| `fetch_transactions_update_command.dfy` | `FetchTransactionsUpdateCommand` | the dispatch command |

Each job is modelled twice. First as pure decision functions: `Admit` for
create, `Submit`/`Run` for submit, `Poll`/`Run` for poll. The lemmas are
proved about these. Then as a class over the mutable `Transaction` row,
whose `Handle` and `Perform` methods (and, for create and submit, `Failed`)
are proved to update the row as those functions say. The poll job has no
`Failed` method, because its failure hook only reports. `Perform` is one attempt, because every job is
tried once: `handle`, then `failed` if `handle` threw.

Inputs that are I/O in the source are parameters here:

- the gateway reply, or the transport failure, is a `Reply` value;
- the backing strings of the gateway client's enums are a `Codebook`;
- the host's provider table, the local directory and the configured sender
  values are an `Environment`;
- the id the database gives a new row is the `newId` parameter.

Two behaviours of the code that are easy to miss:

- A submit on a mirror that is not `LOCAL_UNPROCESSED` does not leave the
  record unmodified. The job's `failed` hook persists `STATE_NOT_ALLOWED`
  and the reason onto it (`SendTransaction.FailureKeepsGatewayColumns`,
  `SendTransaction.NeverResubmitted`). Only the gateway columns are left
  alone.
- The create job's duplicate check uses `firstWhere`, which skips
  soft-deleted rows. The unique indexes on `transaction_id` and `reference`
  do not skip them. So a soft-deleted mirror lets the guards pass, and then
  the insert is refused. That refusal is an unclassified error, written as
  `EXCEPTION` onto the processing item
  (`CreateMobileMoneyTransaction.CreateMobileMoneyTransactionJob.Perform`).

## Model

| member | source | states |
|---|---|---|
| Php.TryFrom | src/Jobs/SendTransactionJob.php:80 | a backed enum's `tryFrom`: a found case has the given backing value; none is found exactly when no case has it |
| Gateway.TryFromAuthCode | src/Jobs/SendTransactionJob.php:80-84 | an auth code decodes to a case with that backing value, and fails exactly when no auth code has it |
| Gateway.TryFromStatusCode | src/Jobs/SendTransactionJob.php:92-96 | a status code decodes to a case with that backing value, and fails exactly when no status code has it |
| Gateway.AuthCodeRoundTrip | src/Jobs/SendTransactionJob.php:80 | with distinct backing values, decoding an auth code's value gives back that auth code |
| Gateway.StatusCodeRoundTrip | src/Jobs/SendTransactionJob.php:92 | with distinct backing values, decoding a status code's value gives back that status code |
| Gateway.Decode | src/Jobs/SendTransactionJob.php:71-96 | the checks run in order: transport failure, unknown auth code, no first result, unknown status code. Each error happens exactly under its condition. Success yields the first result with both codes decoded |
| TransactionStateCodes.FromValue | src/Enums/TransactionStateCodeEnum.php:9-25 | a state found by backing value has that value |
| TransactionStateCodes.ValueInjective | src/Enums/TransactionStateCodeEnum.php:11-25 | the 15 backing values are pairwise distinct |
| TransactionStateCodes.ValueRoundTrip | src/Enums/TransactionStateCodeEnum.php:11-25 | looking up a state's backing value gives back that state |
| TransactionStateCodes.MakeFromAuthCode | src/Enums/TransactionStateCodeEnum.php:27-34 | the result is PROCESSING or API_ERROR, and PROCESSING exactly for AUTH_SUCCESS |
| TransactionStateCodes.MakeFromPaymentStatusCode | src/Enums/TransactionStateCodeEnum.php:36-59 | the result is one of the six gateway outcomes. Each of PAID, FAILED, PROCESSING, INVALID_AMOUNT and DUPLICATE_TRANSACTION comes from exactly its listed status codes |
| TransactionStateCodes.PaymentStatusRange | src/Enums/TransactionStateCodeEnum.php:36-59 | the range of the status translation is exactly {API_ERROR, INVALID_AMOUNT, PROCESSING, FAILED, PAID, DUPLICATE_TRANSACTION} |
| TransactionStateCodes.ProcessingItemStateCode | src/Enums/TransactionStateCodeEnum.php:64-83 | EXCEPTION exactly for the six failure tags. PROVIDER_PENDING exactly for PROCESSING, PROCESSED exactly for PAID, MANUAL_RECONCILIATION_REQUIRED exactly for FAILED and LOCAL_EXCEPTION |
| TransactionStateCodes.PaymentStatusNeverException | src/Enums/TransactionStateCodeEnum.php:38-81 | no payment status code leads, through both translations, to the EXCEPTION processing-item state |
| Failures.UnexpectedCodeQuotesExactly | src/Exceptions/SendTransactionException.php:49-54 | equal unexpected-code reasons for one enum mean equal codes |
| Failures.UnexpectedCodeNamesItsEnum | src/Exceptions/SendTransactionException.php:49-68 | an unknown auth code and an unknown status code never get the same reason |
| CreateTransactionException.NoTransaction | src/Exceptions/CreateTransactionException.php:37-42 | tag NO_TRANSACTION; the reason embeds the processing item's id |
| CreateTransactionException.NoTransactionSender | src/Exceptions/CreateTransactionException.php:44-49 | tag NO_TRANSACTION_SENDER; the reason embeds the transaction's id |
| CreateTransactionException.NoTransactionRecipient | src/Exceptions/CreateTransactionException.php:51-56 | tag NO_TRANSACTION_RECIPIENT; the reason embeds the transaction's id |
| CreateTransactionException.TypeNotAllowed | src/Exceptions/CreateTransactionException.php:58-63 | tag TRANSACTION_TYPE_NOT_ALLOWED; the reason contains "type `<type>` not allowed" |
| CreateTransactionException.StateNotAllowed | src/Exceptions/CreateTransactionException.php:65-70 | tag TRANSACTION_STATE_NOT_ALLOWED; the reason contains "state_code `<state>` not allowed" |
| CreateTransactionException.DuplicateTargetTransaction | src/Exceptions/CreateTransactionException.php:72-77 | tag DUPLICATE_TARGET_TRANSACTION; the reason contains "cannot be created twice, `<existing id>`" |
| CreateTransactionException.EmptyMobileProvider | src/Exceptions/CreateTransactionException.php:79-84 | tag NO_TRANSACTION_RECIPIENT_MOBILE_PROVIDER; the reason embeds the recipient's id |
| CreateTransactionException.EmptyPhoneNumber | src/Exceptions/CreateTransactionException.php:86-91 | tag NO_TRANSACTION_RECIPIENT_PHONE_NUMBER; the reason embeds the recipient's id |
| CreateTransactionException.NoMobileProvider | src/Exceptions/CreateTransactionException.php:93-98 | tag NO_TRANSACTION_RECIPIENT_MOBILE_PROVIDER; the reason embeds the configured provider model and the recipient's id |
| CreateTransactionException.NoTargetMobileProvider | src/Exceptions/CreateTransactionException.php:100-105 | tag NO_TARGET_MOBILE_PROVIDER; the reason embeds the host provider's id |
| CreateTransactionException.MobileProviderReasonsDiffer | src/Exceptions/CreateTransactionException.php:79-98 | the two failures sharing the mobile-provider tag always have different reasons |
| SendTransactionException.StateNotAllowed | src/Exceptions/SendTransactionException.php:35-40 | tag STATE_NOT_ALLOWED; the reason contains "state_code `<current value>` not allowed" |
| SendTransactionException.ApiRequestException | src/Exceptions/SendTransactionException.php:42-47 | tag API_REQUEST_EXCEPTION; the reason embeds the client's error message |
| SendTransactionException.UnexpectedAuthCode | src/Exceptions/SendTransactionException.php:49-54 | tag UNEXPECTED_AUTH_CODE; the reason embeds the code |
| SendTransactionException.NoErrorCode | src/Exceptions/SendTransactionException.php:56-61 | tag NO_ERROR_CODE_PROPERTY; the reason embeds the raw reply body |
| SendTransactionException.UnexpectedErrorCode | src/Exceptions/SendTransactionException.php:63-68 | tag UNEXPECTED_ERROR_CODE; the reason embeds the code |
| FetchTransactionUpdateException.StateNotAllowed | src/Exceptions/FetchTransactionUpdateException.php:37-42 | tag STATE_NOT_ALLOWED; the reason contains the current state's value |
| FetchTransactionUpdateException.EmptyRemoteReference | src/Exceptions/FetchTransactionUpdateException.php:44-49 | a distinct no-remote-reference tag; the reason quotes the reference as interpolated |
| FetchTransactionUpdateException.EmptyRemoteReferenceAsWritten | src/Exceptions/FetchTransactionUpdateException.php:48 | as written, building this failure raises an unclassified "undefined constant" error |
| FetchTransactionUpdateException.ApiRequestException | src/Exceptions/FetchTransactionUpdateException.php:51-56 | tag API_REQUEST_EXCEPTION; the reason embeds the client's error message |
| FetchTransactionUpdateException.UnexpectedAuthCode | src/Exceptions/FetchTransactionUpdateException.php:58-63 | tag UNEXPECTED_AUTH_CODE; the reason embeds the code |
| FetchTransactionUpdateException.NoErrorCode | src/Exceptions/FetchTransactionUpdateException.php:65-70 | tag NO_ERROR_CODE_PROPERTY; the reason embeds the raw reply body |
| FetchTransactionUpdateException.UnexpectedErrorCode | src/Exceptions/FetchTransactionUpdateException.php:72-77 | tag UNEXPECTED_ERROR_CODE; the reason embeds the code |
| Models.Transaction.constructor | src/Models/Transaction.php:22-42 | a new row holds the given id, fixed columns and status, and is not deleted |
| Models.Transaction.Save | src/Jobs/SendTransactionJob.php:98-102 | saving sets the four updatable columns and the reason column, and keeps the deleted flag |
| Models.Transaction.SoftDelete | src/Models/Transaction.php:47 | soft deletion sets the deleted flag and keeps the status |
| Models.LiveMirrors | src/Models/Transaction.php:47 | the lookup view holds exactly the rows that are not soft-deleted |
| Models.TransactionStore.constructor | database/migrations/0000_00_00_014004_create_tingg_transactions_table.php:16-40 | an empty table satisfies the uniqueness invariant |
| Models.TransactionStore.Insert | database/migrations/0000_00_00_014004_create_tingg_transactions_table.php:17-27 | a row that repeats the id, the transaction id or the reference of any row, deleted or not, is refused and the table is unchanged. Otherwise exactly one fresh row is appended. Uniqueness is preserved either way |
| Upstream.ProcessingItem.constructor | src/Jobs/CreateMobileMoneyTransactionJob.php:72 | a processing item holds its id and its upstream transaction, or none |
| Upstream.ProcessingItem.UpdateStateCode | src/Jobs/CreateMobileMoneyTransactionJob.php:159 | the item's state and reason become the given ones |
| CreateMobileMoneyTransaction.FindHostProvider | src/Jobs/CreateMobileMoneyTransactionJob.php:113-120 | a found host provider is live and matches the recipient's provider code and country. None is found exactly when no live row matches |
| CreateMobileMoneyTransaction.FindDirectoryEntry | src/Jobs/CreateMobileMoneyTransactionJob.php:122-128 | a found directory entry is live and linked to the host provider. None is found exactly when no live entry is |
| CreateMobileMoneyTransaction.FindMirror | src/Jobs/CreateMobileMoneyTransactionJob.php:87-91 | a found mirror has the upstream transaction id. None is found exactly when no live mirror has it |
| CreateMobileMoneyTransaction.DecimalAmount | src/Jobs/CreateMobileMoneyTransactionJob.php:140 | the stored amount times ten to the currency's subunit is the minor amount |
| CreateMobileMoneyTransaction.DecimalAmountExample | src/Jobs/CreateMobileMoneyTransactionJob.php:140 | 201 minor NGN is stored as 2.01 |
| CreateMobileMoneyTransaction.Admit | src/Jobs/CreateMobileMoneyTransactionJob.php:70-145 | the guards of `handle`: only a mobile, PROCESSING transaction with no live mirror is admitted, and the new columns refer to that transaction and processing item. `FirstFailingCheckDecides`, `AdmittedIffAllChecksPass`, `DuplicateRejected` and `AdmittedColumns` state the rest |
| CreateMobileMoneyTransaction.FirstFailingCheckDecides | src/Jobs/CreateMobileMoneyTransactionJob.php:72-128 | the first failing check, in the job's order, alone decides the failure |
| CreateMobileMoneyTransaction.AdmittedIffAllChecksPass | src/Jobs/CreateMobileMoneyTransactionJob.php:72-133 | a mirror is admitted exactly when all ten checks pass |
| CreateMobileMoneyTransaction.DuplicateRejected | src/Jobs/CreateMobileMoneyTransactionJob.php:87-91 | a live mirror of the same upstream transaction makes the job fail as a duplicate |
| CreateMobileMoneyTransaction.AdmittedColumns | src/Jobs/CreateMobileMoneyTransactionJob.php:133-145 | an admitted mirror copies the transaction id, processing item id, reference, recipient country and phone number, and the currency. Its amount is the output amount in major units. Its service code comes from a live directory entry linked to the matching live host provider. Its sender comes from configuration. It has no product code |
| CreateMobileMoneyTransaction.CreateMobileMoneyTransactionJob.constructor | src/Jobs/CreateMobileMoneyTransactionJob.php:48-53 | the job holds its processing item |
| CreateMobileMoneyTransaction.CreateMobileMoneyTransactionJob.Handle | src/Jobs/CreateMobileMoneyTransactionJob.php:70-146 | on a guard failure the table is unchanged and that failure is thrown. On a refused insert the table is unchanged and an unclassified error is thrown. Otherwise exactly one row with the admitted columns is appended, in LOCAL_UNPROCESSED |
| CreateMobileMoneyTransaction.CreateMobileMoneyTransactionJob.Failed | src/Jobs/CreateMobileMoneyTransactionJob.php:154-164 | a classified failure writes its tag and reason onto the processing item; any other error writes EXCEPTION and its message |
| CreateMobileMoneyTransaction.CreateMobileMoneyTransactionJob.Perform | src/Jobs/CreateMobileMoneyTransactionJob.php:70-164 | after one attempt, either one mirror was added and the processing item is untouched, or no row was added and the item records why |
| SendTransaction.Submit | src/Jobs/SendTransactionJob.php:65-96 | the decisions of `handle`: success exactly from LOCAL_UNPROCESSED with a reply that decodes, and then the decoded reply. A failure carries one of the five send tags, and STATE_NOT_ALLOWED exactly when the mirror is not LOCAL_UNPROCESSED. `SubmitDecides` gives each error case |
| SendTransaction.Apply | src/Jobs/SendTransactionJob.php:98-102 | a decoded reply records its status code and gateway reference, and a state among the six gateway outcomes; the reason is kept. `SuccessfulSubmission` states all four columns |
| SendTransaction.AfterFailure | src/Jobs/SendTransactionJob.php:111-121 | `failed` changes only the state and reason: a classified failure's tag and reason, or LOCAL_EXCEPTION and the error's message. `FailureKeepsGatewayColumns` states it for a whole attempt |
| SendTransaction.Run | src/Jobs/SendTransactionJob.php:65-121 | an attempt never leaves the mirror in LOCAL_UNPROCESSED, and ends in STATE_NOT_ALLOWED exactly when the mirror was not LOCAL_UNPROCESSED. `SendOutcomesOnly` and `NeverResubmitted` state the rest |
| SendTransaction.SendOutcomesOnly | src/Jobs/SendTransactionJob.php:65-127 | an attempt ends in one of the six gateway outcomes or one of the five send failure tags. So it never ends in NO_AUTH_CODE_PROPERTY, API_TIMEOUT or back in LOCAL_UNPROCESSED |
| SendTransaction.SubmitDecides | src/Jobs/SendTransactionJob.php:65-96 | outside LOCAL_UNPROCESSED the result is STATE_NOT_ALLOWED whatever the reply. Success happens exactly when the reply decodes. A transport failure, an unknown auth code, no first result and an unknown status each give their own failure |
| SendTransaction.SuccessfulSubmission | src/Jobs/SendTransactionJob.php:98-102 | a success records the first result's status, the state it maps to, its description and its gateway reference, and leaves the reason as it was |
| SendTransaction.FailureKeepsGatewayColumns | src/Jobs/SendTransactionJob.php:111-121 | a failed attempt sets exactly the state and reason, to the failure's tag and reason. It never writes the remote reference or the error code |
| SendTransaction.NeverResubmitted | src/Jobs/SendTransactionJob.php:67-69 | after one attempt, a second one is refused before the gateway is asked, whatever it replies. It keeps the gateway columns and the remote reference; the state and reason become STATE_NOT_ALLOWED and its reason |
| SendTransaction.AuthCodeDoesNotDecide | src/Jobs/SendTransactionJob.php:80-99 | any two recognised auth codes, AUTH_FAILED included, lead to the same outcome |
| SendTransaction.PostedAndPendingRecorded | tests/Feature/Jobs/SendTransactionJobTest.php:154-175 | a posted-and-pending reply with reference "ref-123" leaves the mirror PROCESSING with that reference and status |
| SendTransaction.SendTransactionJob.constructor | src/Jobs/SendTransactionJob.php:43-48 | the job holds its mirror |
| SendTransaction.SendTransactionJob.Handle | src/Jobs/SendTransactionJob.php:65-103 | the mirror is updated exactly as a successful `Submit` says, or left unchanged while the failure `Submit` decides is thrown |
| SendTransaction.SendTransactionJob.Failed | src/Jobs/SendTransactionJob.php:111-127 | a classified failure persists its tag and reason; any other error persists LOCAL_EXCEPTION and its message |
| SendTransaction.SendTransactionJob.Perform | src/Jobs/SendTransactionJob.php:65-127 | after one attempt the mirror's status is exactly `Run` of its old status |
| FetchTransactionUpdate.PollReply | src/Jobs/FetchTransactionUpdateJob.php:75-102 | the reply succeeds exactly when it decodes, with the state its payment status maps to; its failures carry only the four reply tags |
| FetchTransactionUpdate.Poll | src/Jobs/FetchTransactionUpdateJob.php:65-102 | the decisions of `handle`, with the reference guard on `remote_reference`: a success is a gateway outcome; the no-remote-reference failure happens exactly for a PROCESSING mirror without a reference, and STATE_NOT_ALLOWED exactly for a mirror not PROCESSING. `PollOnlyProcessing`, `PollNeedsReference` and `PollAgreesWithSubmit` state the rest |
| FetchTransactionUpdate.Run | src/Jobs/FetchTransactionUpdateJob.php:65-115 | only a PROCESSING mirror with a remote reference can change. `PollOnlyChangesState` and `PollIdempotent` state the rest |
| FetchTransactionUpdate.PollAsWritten | src/Jobs/FetchTransactionUpdateJob.php:65-102 | as written every poll fails, and with an unclassified error exactly for a PROCESSING mirror. `AsWrittenNeverPolls` gives the message |
| FetchTransactionUpdate.RunAsWritten | src/Jobs/FetchTransactionUpdateJob.php:65-115 | as written an attempt never changes the mirror. `AsWrittenMissesPayment` shows a payment this loses |
| FetchTransactionUpdate.AsWrittenNeverPolls | src/Jobs/FetchTransactionUpdateJob.php:71-73 | as written, every poll fails, a PROCESSING mirror with the undefined-constant error, and no status changes |
| FetchTransactionUpdate.AsWrittenMissesPayment | src/Jobs/FetchTransactionUpdateJob.php:71-73 | a PROCESSING mirror whose payment the gateway accepted becomes PAID when the reference check is corrected, and stays PROCESSING as written |
| FetchTransactionUpdate.PollOnlyProcessing | src/Jobs/FetchTransactionUpdateJob.php:67-69 | a mirror that is not PROCESSING is refused with STATE_NOT_ALLOWED before the gateway is asked; a successful poll needs PROCESSING and a remote reference |
| FetchTransactionUpdate.PollNeedsReference | src/Jobs/FetchTransactionUpdateJob.php:71-73 | a PROCESSING mirror with an empty remote reference fails with the no-remote-reference tag |
| FetchTransactionUpdate.PollAgreesWithSubmit | src/Jobs/FetchTransactionUpdateJob.php:84-102 | a poll succeeds on exactly the replies a submission succeeds on, and records the same state; it fails on exactly the others, with the same state tag and the same reason |
| FetchTransactionUpdate.PollOnlyChangesState | src/Jobs/FetchTransactionUpdateJob.php:102-103 | a poll changes at most the state, and only to a gateway outcome |
| FetchTransactionUpdate.PollIdempotent | src/Jobs/FetchTransactionUpdateJob.php:102 | polling twice with the same reply is polling once |
| FetchTransactionUpdate.FetchTransactionUpdateJob.constructor | src/Jobs/FetchTransactionUpdateJob.php:43-48 | the job holds its mirror |
| FetchTransactionUpdate.FetchTransactionUpdateJob.Handle | src/Jobs/FetchTransactionUpdateJob.php:65-104 | the mirror's state becomes what `Poll` decides, with the other columns unchanged; otherwise the mirror is untouched and the failure is thrown |
| FetchTransactionUpdate.FetchTransactionUpdateJob.Perform | src/Jobs/FetchTransactionUpdateJob.php:65-115 | after one attempt the mirror's status is exactly `Run` of its old status; `failed` writes nothing |
| FetchTransactionsUpdateCommand.PollTargets | src/Console/FetchTransactionsUpdateCommand.php:44 | the selection holds exactly the ids of the live PROCESSING rows |
| FetchTransactionsUpdateCommand.CountMatchesTargets | src/Console/FetchTransactionsUpdateCommand.php:46-61 | the count reported equals the number of jobs dispatched |
| FetchTransactionsUpdateCommand.PollTargetsDistinct | src/Console/FetchTransactionsUpdateCommand.php:59-61 | rows with distinct ids get one poll job each, never two |
| FetchTransactionsUpdateCommand.Handle | src/Console/FetchTransactionsUpdateCommand.php:42-67 | the dispatched ids are exactly the selection, in table order, and pairwise distinct: each live PROCESSING mirror is polled once. "Nothing unfinished" is reported exactly when nothing is dispatched. Otherwise the count reported is the number dispatched |
| FetchTransactionsUpdateCommand.SingleRow | tests/Feature/Console/FetchTransactionsUpdateCommandTest.php:30-61 | a table with one row dispatches exactly when that row is live and PROCESSING |

## Left out

- HTTP and JSON: the gateway client, its requests and the parsing of replies are not part of this model. A reply enters as a `Reply` value; a thrown client error is `TransportFailure` with its message.
- The backing values of the gateway client's enums live in that client library, which is not part of this model. They are a `Codebook` parameter, assumed injective where a lemma needs it.
- Gateway.Decode: an empty `results` list is read as the missing-result failure (NO_ERROR_CODE_PROPERTY). That is the branch the code's `instanceof` check is written for. A framework that turns PHP's "undefined array key" warning into an exception would raise an unclassified error first. That error would become LOCAL_EXCEPTION in submit, and nothing in poll.
- Queue machinery: `ShouldBeUnique`, `afterCommit`, encryption, `onQueue`, the single try and serialisation are not modelled. Each job is one `Perform`. The jobs' `uniqueId` keys (the processing item's id for create, the mirror's id for submit and poll) matter only for queue de-duplication, so they are not modelled.
- CreateMobileMoneyTransaction.DecimalAmount: the amount is an exact real number, not a `double`. The decimal string formatting and floating-point rounding are not modelled.
- `report()`, the model events, the console's progress bar and its info lines are not modelled. Only the empty-selection report is.
- Concurrency: the command counts and then iterates in two separate queries. The model reads one snapshot of the table for both.
- `country_code_alpha2`, `created_at`/`updated_at`/`deleted_at` timestamps and `getDate` (clock) are not modelled. Neither are the model accessors that only read a column.
- Configuration and wiring: the service provider, the config file and the static model-class registry are not modelled. The host provider model class is an `Environment` field. The two sender values are optional strings, and an absent one is stored as "".
- Models.TransactionStore.Insert: the database driver's own error text is a fixed placeholder message (`UniqueViolation`).
- Upstream.ProcessingItem.constructor: the host's processing item, transaction, recipient and provider models belong to the host application, not this package. Only the fields the jobs read or write are modelled, and only the processing-item state cases this package writes.
- `TransactionStateCodes.MakeFromAuthCode` is modelled, but no job calls it. The jobs decide the state from the payment status alone.

## Findings

| source | as written | input that shows it | evidently intended | confidence | as-written member | corrected member |
|---|---|---|---|---|---|---|
| src/Jobs/FetchTransactionUpdateJob.php:71 | the reference guard tests `batch_reference`, which the mirror model does not have, so it reads null for every mirror | a PROCESSING mirror with remote reference "ref-123" whose payment the gateway reports PAYMENT_ACCEPTED: it is refused and stays PROCESSING | test `remote_reference`, as the failure's own reason text does (src/Exceptions/FetchTransactionUpdateException.php:47) | not executed | FetchTransactionUpdate.AsWrittenMissesPayment | FetchTransactionUpdate.PollNeedsReference |
| src/Exceptions/FetchTransactionUpdateException.php:48 | the failure is tagged `TransactionStateCodeEnum::NO_REMOTE_REFERENCE`, a case the enum does not define, so building it raises an unclassified "Undefined constant" error | any PROCESSING mirror reaching the reference guard | a distinct no-remote-reference tag | not executed | FetchTransactionUpdate.AsWrittenNeverPolls | FetchTransactionUpdateException.EmptyRemoteReference |
