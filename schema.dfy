/**
 * The rows of the ledger's tables (core/db.py, `setup_database`). Each table is a sequence
 * of rows in rowid order; a row's primary key is its `id` field.
 */
module Schema {
  import opened Wrappers
  import opened Seqs
  import opened Money

  type UserId = int
  type ListId = int
  type LogId = int
  type ClaimId = int
  /** SQLite `DATE` text, `YYYY-MM-DD`. */
  type Date = string
  /** SQLite `DATETIME` text, as `CURRENT_TIMESTAMP` writes it. */
  type Timestamp = string

  /**
   * The `Status` texts 'Paid', 'Unpaid', 'Pending Verification', 'Rejected' and 'Flagged'.
   * The table's CHECK constraint admits the first four only, yet queries and screens test for 'Flagged'.
   */
  datatype Status = Paid | Unpaid | PendingVerification | Rejected | Flagged

  /** The CHECK constraint on `Payment_Logs.Status`. */
  predicate CheckAllows(s: Status) {
    s != Flagged
  }

  datatype Role = Admin | Member

  datatype Interval = Weekly | Monthly | Quarterly | Yearly | OneTime

  /** A `Users` row. */
  datatype User = User(id: UserId, username: string, role: Role, phone: string, email: Option<string>)

  /** A `Fund_Lists` row; `VPA` and `DueDate` may be NULL. */
  datatype Fund = Fund(id: ListId, name: string, amount: Amount, interval: Interval, vpa: Option<string>, dueDate: Option<Date>)

  /** A `Payment_Logs` row. */
  datatype PaymentLog = PaymentLog(
    id: LogId, userId: UserId, listId: ListId, amount: Amount, dueDate: Date,
    paymentDate: Option<Date>, status: Status, txnId: Option<string>)

  /** An `Unverified_Transaction_IDs` row: a member's claim awaiting reconciliation. */
  datatype Claim = Claim(id: ClaimId, logId: LogId, txnId: string, submitted: Timestamp)

  /** A row of `payment_logs_to_create`, before the insert gives it an id; the due date may be NULL. */
  datatype NewLog = NewLog(userId: UserId, listId: ListId, amount: Amount, dueDate: Option<Date>, status: Status)

  function FindFund(funds: seq<Fund>, id: ListId): Option<Fund> {
    First(funds, (f: Fund) => f.id == id)
  }

  function HasLogId(id: LogId): PaymentLog -> bool {
    (l: PaymentLog) => l.id == id
  }

  function FindLog(logs: seq<PaymentLog>, id: LogId): Option<PaymentLog> {
    First(logs, HasLogId(id))
  }

  function FindUser(users: seq<User>, id: UserId): Option<User> {
    First(users, (u: User) => u.id == id)
  }

  /** `UPDATE Payment_Logs SET ... WHERE Log_ID = id`: `f` applied to the matching rows, the others kept. */
  function UpdateLog(logs: seq<PaymentLog>, id: LogId, f: PaymentLog -> PaymentLog): (r: seq<PaymentLog>)
    ensures |r| == |logs|
    ensures forall k :: 0 <= k < |logs| ==> r[k] == if logs[k].id == id then f(logs[k]) else logs[k]
  {
    seq(|logs|, k requires 0 <= k < |logs| => if logs[k].id == id then f(logs[k]) else logs[k])
  }
}
