/**
 * The package's own records: `Transaction`, the local mirror of a host
 * payment, the table that holds them, and `MobileMoneyProvider`, the local
 * directory that maps a host provider to a gateway service code.
 */
module Models {
  import opened Wrappers
  import opened Gateway
  import opened TransactionStateCodes

  /** The columns of a mirror that never change once it is created. */
  datatype Columns = Columns(
    transactionId: string,
    processingItemId: string,
    reference: string,
    countryCode: string,
    currencyCode: string,
    amount: real,
    serviceCode: string,
    productCode: Option<string>,
    senderName: string,
    senderPhoneNumber: string,
    recipientPhoneNumber: string)

  /** The columns of a mirror that the jobs update. */
  datatype Status = Status(
    stateCode: TransactionState,
    stateCodeReason: Option<string>,
    errorCode: Option<PaymentStatusCode>,
    errorCodeDescription: Option<string>,
    remoteReference: Option<string>)

  /** The status a mirror is created with. */
  const Unprocessed := Status(LOCAL_UNPROCESSED, None, None, None, None)

  /** One row of the mirror table. */
  class Transaction {
    const id: string
    const columns: Columns
    var stateCode: TransactionState
    var stateCodeReason: Option<string>
    var errorCode: Option<PaymentStatusCode>
    var errorCodeDescription: Option<string>
    var remoteReference: Option<string>
    var deleted: bool

    constructor (id: string, columns: Columns, status: Status)
      ensures this.id == id && this.columns == columns
      ensures CurrentStatus() == status && !deleted
    {
      this.id := id;
      this.columns := columns;
      stateCode := status.stateCode;
      stateCodeReason := status.stateCodeReason;
      errorCode := status.errorCode;
      errorCodeDescription := status.errorCodeDescription;
      remoteReference := status.remoteReference;
      deleted := false;
    }

    function CurrentStatus(): Status
      reads this
    {
      Status(stateCode, stateCodeReason, errorCode, errorCodeDescription, remoteReference)
    }

    /** Assigns the updatable columns and saves the row. */
    method Save(status: Status)
      modifies this
      ensures CurrentStatus() == status && deleted == old(deleted)
    {
      stateCode := status.stateCode;
      stateCodeReason := status.stateCodeReason;
      errorCode := status.errorCode;
      errorCodeDescription := status.errorCodeDescription;
      remoteReference := status.remoteReference;
    }

    /** Soft deletion: the row stays in the table and keeps its unique columns. */
    method SoftDelete()
      modifies this
      ensures deleted && CurrentStatus() == old(CurrentStatus())
    {
      deleted := true;
    }
  }

  /** A row of the local provider directory. */
  datatype MobileMoneyProvider = MobileMoneyProvider(
    id: string,
    mobileMoneyProviderId: string,
    code: string,
    deleted: bool)

  /** What a lookup by `transaction_id` sees of a live mirror. */
  datatype Mirror = Mirror(id: string, transactionId: string)

  /** The live (not soft-deleted) rows, in table order. */
  function LiveMirrors(rows: seq<Transaction>): (r: seq<Mirror>)
    reads rows
    ensures |r| <= |rows|
    ensures forall m :: m in r <==> exists i :: 0 <= i < |rows| && !rows[i].deleted && m == Mirror(rows[i].id, rows[i].columns.transactionId)
  {
    if rows == [] then []
    else
      var rest := LiveMirrors(rows[1..]);
      var t := rows[0];
      if t.deleted then rest else [Mirror(t.id, t.columns.transactionId)] + rest
  }

  /** The database refuses a row that repeats the id, the transaction id or the reference of any row, deleted or not. */
  predicate Collides(rows: seq<Transaction>, id: string, columns: Columns) {
    exists t :: t in rows && (t.id == id || t.columns.transactionId == columns.transactionId || t.columns.reference == columns.reference)
  }

  /** What the database driver reports for a refused insert. */
  const UniqueViolation := "Integrity constraint violation: duplicate entry for a unique column"

  /** The `tingg_transactions` table. */
  class TransactionStore {
    var rows: seq<Transaction>

    /** The primary key and both unique columns are unique over all rows, deleted ones included. */
    ghost predicate Valid()
      reads this
    {
      forall i, j :: 0 <= i < j < |rows| ==>
        rows[i] != rows[j] && rows[i].id != rows[j].id &&
        rows[i].columns.transactionId != rows[j].columns.transactionId &&
        rows[i].columns.reference != rows[j].columns.reference
    }

    constructor ()
      ensures Valid() && rows == []
    {
      rows := [];
    }

    function Mirrors(): seq<Mirror>
      reads this, rows
    {
      LiveMirrors(rows)
    }

    /**
     * `Transaction::create`: appends a fresh row, or refuses it and leaves
     * the table unchanged when it would break a unique column.
     */
    method Insert(id: string, columns: Columns, status: Status) returns (t: Transaction?)
      requires Valid()
      modifies this
      ensures Valid()
      ensures Collides(old(rows), id, columns) ==> t == null && rows == old(rows)
      ensures !Collides(old(rows), id, columns) ==>
        t != null && fresh(t) && rows == old(rows) + [t] &&
        t.id == id && t.columns == columns && t.CurrentStatus() == status && !t.deleted
    {
      if exists r :: r in rows && (r.id == id || r.columns.transactionId == columns.transactionId || r.columns.reference == columns.reference) {
        return null;
      }
      t := new Transaction(id, columns, status);
      rows := rows + [t];
    }
  }
}
