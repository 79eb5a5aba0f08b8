/**
 * The matching pass of `verify_transactions` (core/db.py), as functions of the tables it touches.
 * Each pending claim is decided against the cleaned statement, then its log is marked, the
 * transaction id is registered on approval, and the claim row is deleted. `Run` folds these
 * steps over the pending rows in order; the ledger's loop is proved to compute exactly it.
 */
module Reconcile {
  import opened Wrappers
  import opened Seqs
  import opened Text
  import opened Money
  import opened Schema
  import opened BankStatement

  /**
   * A row of `get_unverified_transactions`: a queued claim joined with its log, member and fund.
   * `txnId` is the claim's text as stored; `amount` is the log's Amount.
   */
  datatype PendingRow = PendingRow(claimId: ClaimId, logId: LogId, txnId: string, username: string, fund: string, amount: Amount)

  /** An entry of `found_txns_details`. */
  datatype ApprovedTxn = ApprovedTxn(txnId: string, username: string, fund: string, amount: Amount)

  /** An entry of `rejected_txns`. */
  datatype RejectedTxn = RejectedTxn(txnId: string, username: string, amount: Amount, reason: string)

  datatype Decision = Approve | Reject(reason: string)

  /** The tables a reconciliation pass writes: `Payment_Logs`, `Unverified_Transaction_IDs`, `Verified_Transactions`. */
  datatype Tables = Tables(logs: seq<PaymentLog>, claims: seq<Claim>, registry: map<string, Timestamp>)

  const NotFound: string := "Transaction ID not found in statement"

  function MismatchReason(bank: Amount, submitted: Amount): string {
    "Amount Mismatch (Bank: " + FormatAmount(bank) + ", Submitted: " + FormatAmount(submitted) + ")"
  }

  /** `str(row['Transaction_ID']).strip()`: the claim side is only trimmed, never unquoted or cut at a dot. */
  function ClaimedId(row: PendingRow): string {
    Trim(row.txnId)
  }

  /** The outcome for one claim: the first statement row under its id must carry exactly its amount. */
  function Decide(row: PendingRow, batch: seq<CleanRow>): Decision {
    match Lookup(batch, ClaimedId(row))
    case None => Reject(NotFound)
    case Some(bank) => if bank == row.amount then Approve else Reject(MismatchReason(bank, row.amount))
  }

  function ApprovedEntry(batch: seq<CleanRow>): PendingRow -> Option<ApprovedTxn> {
    (row: PendingRow) =>
      if Decide(row, batch) == Approve then Some(ApprovedTxn(ClaimedId(row), row.username, row.fund, row.amount)) else None
  }

  function RejectedEntry(batch: seq<CleanRow>): PendingRow -> Option<RejectedTxn> {
    (row: PendingRow) =>
      match Decide(row, batch)
      case Approve => None
      case Reject(reason) => Some(RejectedTxn(ClaimedId(row), row.username, row.amount, reason))
  }

  /** `found_txns_details` after a full pass. */
  function ApprovedRows(pending: seq<PendingRow>, batch: seq<CleanRow>): seq<ApprovedTxn> {
    FilterMap(pending, ApprovedEntry(batch))
  }

  /** `rejected_txns` after a full pass. */
  function RejectedRows(pending: seq<PendingRow>, batch: seq<CleanRow>): seq<RejectedTxn> {
    FilterMap(pending, RejectedEntry(batch))
  }

  function MarkPaid(today: Date): PaymentLog -> PaymentLog {
    (l: PaymentLog) => l.(status := Paid, paymentDate := Some(today))
  }

  function MarkRejected(): PaymentLog -> PaymentLog {
    (l: PaymentLog) => l.(status := Rejected)
  }

  function OtherClaim(id: ClaimId): Claim -> bool {
    (c: Claim) => c.id != id
  }

  /** The writes for one claim: the log update, the registry insert-or-ignore on approval, the claim delete. */
  function Apply(t: Tables, row: PendingRow, d: Decision, today: Date, now: Timestamp): Tables {
    var claims := Filter(t.claims, OtherClaim(row.claimId));
    var id := ClaimedId(row);
    match d
    case Approve =>
      Tables(UpdateLog(t.logs, row.logId, MarkPaid(today)), claims,
             if id in t.registry then t.registry else t.registry[id := now])
    case Reject(_) =>
      Tables(UpdateLog(t.logs, row.logId, MarkRejected()), claims, t.registry)
  }

  /** The tables after the pending rows are processed in order. */
  function Run(t: Tables, pending: seq<PendingRow>, batch: seq<CleanRow>, today: Date, now: Timestamp): Tables
    decreases |pending|
  {
    if pending == [] then t
    else
      var last := pending[|pending| - 1];
      Apply(Run(t, pending[..|pending| - 1], batch, today, now), last, Decide(last, batch), today, now)
  }

  /** One more pending row: the pass over the first `i + 1` rows applies row `i` to the pass over the first `i`. */
  lemma RunStep(t: Tables, pending: seq<PendingRow>, i: nat, batch: seq<CleanRow>, today: Date, now: Timestamp)
    requires i < |pending|
    ensures Run(t, pending[..i + 1], batch, today, now)
            == Apply(Run(t, pending[..i], batch, today, now), pending[i], Decide(pending[i], batch), today, now)
  {
    assert pending[..i + 1][..i] == pending[..i];
  }

  /** One more pending row adds its entry, if any, to each of the two result lists. */
  lemma ResultsStep(pending: seq<PendingRow>, i: nat, batch: seq<CleanRow>)
    requires i < |pending|
    ensures ApprovedRows(pending[..i + 1], batch) == ApprovedRows(pending[..i], batch) + ApprovedRows([pending[i]], batch)
    ensures RejectedRows(pending[..i + 1], batch) == RejectedRows(pending[..i], batch) + RejectedRows([pending[i]], batch)
  {
    assert pending[..i + 1] == pending[..i] + [pending[i]];
    FilterMapAppend(pending[..i], [pending[i]], ApprovedEntry(batch));
    FilterMapAppend(pending[..i], [pending[i]], RejectedEntry(batch));
  }

  /** The entry one row contributes: its approval record, or its rejection record with the reason. */
  lemma RowEntries(row: PendingRow, batch: seq<CleanRow>, d: Decision)
    requires d == Decide(row, batch)
    ensures d.Approve? ==> ApprovedRows([row], batch) == [ApprovedTxn(ClaimedId(row), row.username, row.fund, row.amount)]
                           && RejectedRows([row], batch) == []
    ensures d.Reject? ==> ApprovedRows([row], batch) == []
                          && RejectedRows([row], batch) == [RejectedTxn(ClaimedId(row), row.username, row.amount, d.reason)]
  {
    FilterMapSingle(row, ApprovedEntry(batch));
    FilterMapSingle(row, RejectedEntry(batch));
  }

  // ---- Reference descriptions of a pass ----

  function ClaimIdOf(row: PendingRow): ClaimId { row.claimId }

  function Every(row: PendingRow): bool { true }

  /** The claim ids a pass resolves. */
  function Resolved(pending: seq<PendingRow>): set<ClaimId> {
    KeysWhere(pending, Every, ClaimIdOf)
  }

  function Unresolved(ids: set<ClaimId>): Claim -> bool {
    (c: Claim) => c.id !in ids
  }

  function Approves(batch: seq<CleanRow>): PendingRow -> bool {
    (row: PendingRow) => Decide(row, batch) == Approve
  }

  /** The transaction ids a pass approves. */
  function ApprovedIds(pending: seq<PendingRow>, batch: seq<CleanRow>): set<string> {
    KeysWhere(pending, Approves(batch), ClaimedId)
  }

  /** The last pending row that names log `id`, if any. */
  function LastFor(pending: seq<PendingRow>, id: LogId): Option<PendingRow>
    decreases |pending|
  {
    if pending == [] then None
    else if pending[|pending| - 1].logId == id then Some(pending[|pending| - 1])
    else LastFor(pending[..|pending| - 1], id)
  }

  function ApprovesLog(batch: seq<CleanRow>, id: LogId): PendingRow -> bool {
    (row: PendingRow) => row.logId == id && Decide(row, batch) == Approve
  }

  /** Some row naming log `id` is approved. */
  predicate ApprovedFor(pending: seq<PendingRow>, batch: seq<CleanRow>, id: LogId) {
    Any(pending, ApprovesLog(batch, id))
  }

  /** The status a log ends with: the decision on the last row naming it, or its old status when none does. */
  function StatusAfter(l: PaymentLog, pending: seq<PendingRow>, batch: seq<CleanRow>): Status {
    match LastFor(pending, l.id)
    case None => l.status
    case Some(row) => if Decide(row, batch) == Approve then Paid else Rejected
  }

  // ---- Decisions ----

  /** A claim is rejected as not found exactly when no usable statement row carries its trimmed id. */
  lemma DecideNotFound(row: PendingRow, rows: seq<BankRow>, toNumeric: string -> Option<Amount>)
    ensures Decide(row, Clean(rows, toNumeric)) == Reject(NotFound)
            <==> forall j :: 0 <= j < |rows| ==> !Usable(rows[j], ClaimedId(row), toNumeric)
  {
    LookupMisses(rows, ClaimedId(row), toNumeric);
    match Lookup(Clean(rows, toNumeric), ClaimedId(row))
    case None =>
    case Some(bank) =>
      if bank != row.amount {
        var reason := MismatchReason(bank, row.amount);
        assert reason[0] == 'A' && NotFound[0] == 'T';
      }
  }

  /**
   * When statement row `j` is the first usable one under the claim's trimmed id, the claim is
   * approved exactly when that row's amount equals the log's Amount, and otherwise rejected with
   * the mismatch reason naming both amounts.
   */
  lemma DecideByFirstUsable(row: PendingRow, rows: seq<BankRow>, toNumeric: string -> Option<Amount>, j: nat)
    requires j < |rows| && Usable(rows[j], ClaimedId(row), toNumeric)
    requires forall i :: 0 <= i < j ==> !Usable(rows[i], ClaimedId(row), toNumeric)
    ensures var bank := BankAmount(rows[j].amount, toNumeric).value;
            Decide(row, Clean(rows, toNumeric)) == if bank == row.amount then Approve else Reject(MismatchReason(bank, row.amount))
  {
    LookupFindsFirstUsable(rows, ClaimedId(row), toNumeric, j);
  }

  /** Every pending row lands in exactly one of the two result lists, so their lengths add up. */
  lemma ResultsPartition(pending: seq<PendingRow>, batch: seq<CleanRow>)
    ensures |ApprovedRows(pending, batch)| + |RejectedRows(pending, batch)| == |pending|
    ensures forall k :: 0 <= k < |pending| ==> (ApprovedEntry(batch)(pending[k]).Some? <==> Decide(pending[k], batch) == Approve)
    ensures forall k :: 0 <= k < |pending| ==> (RejectedEntry(batch)(pending[k]).Some? <==> Decide(pending[k], batch) != Approve)
  {
    FilterMapPartition(pending, ApprovedEntry(batch), RejectedEntry(batch));
  }

  // ---- The tables after a pass ----

  /** Exactly the claims the pass names are deleted; every other claim row stays, in order. */
  lemma {:induction false} ClaimsAfter(t: Tables, pending: seq<PendingRow>, batch: seq<CleanRow>, today: Date, now: Timestamp)
    ensures Run(t, pending, batch, today, now).claims == Filter(t.claims, Unresolved(Resolved(pending)))
    decreases |pending|
  {
    if pending == [] {
      FilterAll(t.claims, Unresolved(Resolved(pending)));
    } else {
      var init := pending[..|pending| - 1];
      var last := pending[|pending| - 1];
      ClaimsAfter(t, init, batch, today, now);
      ResolvedSnoc(pending);
      UnresolvedOneMore(Resolved(init), last.claimId);
      FilterFilter(t.claims, Unresolved(Resolved(init)), OtherClaim(last.claimId), Unresolved(Resolved(pending)));
    }
  }

  /** One more pending row resolves its own claim id on top of those before it. */
  lemma ResolvedSnoc(pending: seq<PendingRow>)
    requires pending != []
    ensures Resolved(pending) == Resolved(pending[..|pending| - 1]) + {pending[|pending| - 1].claimId}
  {
    KeysWhereSnoc(pending, Every, ClaimIdOf);
  }

  /** A claim stays unresolved by one more id exactly when it stays unresolved and is not that claim. */
  lemma UnresolvedOneMore(ids: set<ClaimId>, id: ClaimId)
    ensures forall c :: Unresolved(ids + {id})(c) == (Unresolved(ids)(c) && OtherClaim(id)(c))
  {
  }

  /** The ids registered after a pass: the old ones plus every approved one. */
  lemma {:induction false} RegistryKeysAfter(t: Tables, pending: seq<PendingRow>, batch: seq<CleanRow>, today: Date, now: Timestamp)
    ensures Run(t, pending, batch, today, now).registry.Keys == t.registry.Keys + ApprovedIds(pending, batch)
    decreases |pending|
  {
    if pending != [] {
      var init := pending[..|pending| - 1];
      var last := pending[|pending| - 1];
      var prev := Run(t, init, batch, today, now);
      assert Run(t, pending, batch, today, now) == Apply(prev, last, Decide(last, batch), today, now);
      RegistryKeysAfter(t, init, batch, today, now);
      ApprovedIdsSnoc(pending, batch);
      RegistryStep(prev, last, Decide(last, batch), today, now);
    }
  }

  /** A pass never changes the timestamp of an id registered before it (INSERT OR IGNORE). */
  lemma {:induction false} RegistryKeepsOld(t: Tables, pending: seq<PendingRow>, batch: seq<CleanRow>, today: Date, now: Timestamp)
    ensures var r := Run(t, pending, batch, today, now).registry;
            forall id :: id in t.registry ==> id in r && r[id] == t.registry[id]
    decreases |pending|
  {
    if pending != [] {
      var init := pending[..|pending| - 1];
      var last := pending[|pending| - 1];
      var prev := Run(t, init, batch, today, now);
      assert Run(t, pending, batch, today, now) == Apply(prev, last, Decide(last, batch), today, now);
      RegistryKeepsOld(t, init, batch, today, now);
      RegistryStep(prev, last, Decide(last, batch), today, now);
    }
  }

  /** Every id a pass registers is stamped with the pass's own time. */
  lemma {:induction false} RegistryStampsNew(t: Tables, pending: seq<PendingRow>, batch: seq<CleanRow>, today: Date, now: Timestamp)
    ensures var r := Run(t, pending, batch, today, now).registry;
            forall id :: id in r && id !in t.registry ==> r[id] == now
    decreases |pending|
  {
    if pending != [] {
      var init := pending[..|pending| - 1];
      var last := pending[|pending| - 1];
      var prev := Run(t, init, batch, today, now);
      assert Run(t, pending, batch, today, now) == Apply(prev, last, Decide(last, batch), today, now);
      RegistryStampsNew(t, init, batch, today, now);
      RegistryKeepsOld(t, init, batch, today, now);
      RegistryStep(prev, last, Decide(last, batch), today, now);
    }
  }

  /**
   * The registry only grows, and only by approved ids: every old entry keeps its timestamp, every
   * approved id is present afterwards, and every new entry is an approved id stamped `now`.
   */
  lemma RegistryAfter(t: Tables, pending: seq<PendingRow>, batch: seq<CleanRow>, today: Date, now: Timestamp)
    ensures var r := Run(t, pending, batch, today, now).registry;
            r.Keys == t.registry.Keys + ApprovedIds(pending, batch)
            && (forall id :: id in t.registry ==> r[id] == t.registry[id])
            && (forall id :: id in r && id !in t.registry ==> r[id] == now)
  {
    RegistryKeysAfter(t, pending, batch, today, now);
    RegistryKeepsOld(t, pending, batch, today, now);
    RegistryStampsNew(t, pending, batch, today, now);
  }

  /** One more pending row adds its transaction id to the approved ones exactly when it is approved. */
  lemma ApprovedIdsSnoc(pending: seq<PendingRow>, batch: seq<CleanRow>)
    requires pending != []
    ensures var last := pending[|pending| - 1];
            ApprovedIds(pending, batch)
              == ApprovedIds(pending[..|pending| - 1], batch) + (if Decide(last, batch) == Approve then {ClaimedId(last)} else {})
  {
    KeysWhereSnoc(pending, Approves(batch), ClaimedId);
  }

  /** One settled row inserts its id, stamped `now`, exactly when it is approved and the id is new. */
  lemma RegistryStep(t: Tables, row: PendingRow, d: Decision, today: Date, now: Timestamp)
    ensures var r := Apply(t, row, d, today, now).registry;
            r.Keys == t.registry.Keys + (if d == Approve then {ClaimedId(row)} else {})
            && (forall id :: id in t.registry ==> r[id] == t.registry[id])
            && (forall id :: id in r && id !in t.registry ==> r[id] == now)
  {
  }

  /** `LastFor` after one more row: that row when it names the log, the earlier answer otherwise. */
  lemma LastForSnoc(pending: seq<PendingRow>, id: LogId)
    requires pending != []
    ensures var last := pending[|pending| - 1];
            LastFor(pending, id) == if last.logId == id then Some(last) else LastFor(pending[..|pending| - 1], id)
  {
  }

  /**
   * Each log row keeps its place and every column but two: its status is decided by the last
   * pending row naming it (Paid on approval, Rejected otherwise; untouched when none names it),
   * and its payment date becomes `today` exactly when some row naming it is approved.
   */
  lemma {:induction false} LogsAfter(t: Tables, pending: seq<PendingRow>, batch: seq<CleanRow>, today: Date, now: Timestamp)
    ensures var logs := Run(t, pending, batch, today, now).logs;
            |logs| == |t.logs|
            && forall k :: 0 <= k < |t.logs| ==>
                 logs[k] == t.logs[k].(status := StatusAfter(t.logs[k], pending, batch),
                                       paymentDate := if ApprovedFor(pending, batch, t.logs[k].id) then Some(today) else t.logs[k].paymentDate)
    decreases |pending|
  {
    if pending != [] {
      var init := pending[..|pending| - 1];
      LogsAfter(t, init, batch, today, now);
      var after := Run(t, pending, batch, today, now).logs;
      forall k | 0 <= k < |t.logs|
        ensures after[k] == t.logs[k].(status := StatusAfter(t.logs[k], pending, batch),
                                       paymentDate := if ApprovedFor(pending, batch, t.logs[k].id) then Some(today) else t.logs[k].paymentDate)
      {
        LastForSnoc(pending, t.logs[k].id);
        AnySnoc(pending, ApprovesLog(batch, t.logs[k].id));
      }
    }
  }

  // ---- Worked examples ----

  /** A statement id or amount made of digits only passes through every clean-up step unchanged. */
  lemma DigitsClean(cell: string)
    requires IsDigits(cell)
    ensures Trim(cell) == cell && Tidy(cell) == cell && NormaliseId(cell) == cell
  {
    StripUnpadded(cell, IsSpace);
    NormaliseBareId(cell, []);
    assert cell + [] == cell;
  }

  /** A one-row statement cleans to that row's clean form. */
  lemma OneRowBatch(row: BankRow, toNumeric: string -> Option<Amount>, clean: CleanRow)
    requires CleanRowOf(row, toNumeric) == Some(clean)
    ensures Clean([row], toNumeric) == [clean]
  {
    FilterMapSingle(row, Cleaner(toNumeric));
  }

  /** Against a one-row cleaned statement under the claim's id, the amounts alone decide. */
  lemma DecideOneRow(row: PendingRow, clean: CleanRow)
    requires ClaimedId(row) == clean.id
    ensures Decide(row, [clean]) == if clean.amount == row.amount then Approve else Reject(MismatchReason(clean.amount, row.amount))
  {
    FirstAt([clean], HasId(clean.id), 0);
  }

  /** One cleaned row under the claim's id with the claimed amount approves the claim and nothing is rejected. */
  lemma ApprovedByOneRow(row: PendingRow, raw: BankRow, toNumeric: string -> Option<Amount>, clean: CleanRow)
    requires Clean([raw], toNumeric) == [clean] && ClaimedId(row) == clean.id && clean.amount == row.amount
    ensures var batch := Clean([raw], toNumeric);
            Decide(row, batch) == Approve
            && ApprovedRows([row], batch) == [ApprovedTxn(ClaimedId(row), row.username, row.fund, row.amount)]
            && RejectedRows([row], batch) == []
  {
    DecideOneRow(row, clean);
    FilterMapSingle(row, ApprovedEntry([clean]));
    FilterMapSingle(row, RejectedEntry([clean]));
  }

  lemma ExampleApproved(row: PendingRow, cell: string, toNumeric: string -> Option<Amount>)
    requires IsDigits(row.txnId) && IsDigits(cell) && toNumeric(cell) == Some(row.amount)
    ensures var batch := Clean([BankRow(row.txnId, cell)], toNumeric);
            Decide(row, batch) == Approve
            && ApprovedRows([row], batch) == [ApprovedTxn(row.txnId, row.username, row.fund, row.amount)]
            && RejectedRows([row], batch) == []
  {
    DigitsClean(row.txnId);
    DigitsClean(cell);
    PlainApproved(row, cell, toNumeric);
  }

  lemma PlainApproved(row: PendingRow, cell: string, toNumeric: string -> Option<Amount>)
    requires Trim(row.txnId) == row.txnId && NormaliseId(row.txnId) == row.txnId
    requires Tidy(cell) == cell && toNumeric(cell) == Some(row.amount)
    ensures var batch := Clean([BankRow(row.txnId, cell)], toNumeric);
            Decide(row, batch) == Approve
            && ApprovedRows([row], batch) == [ApprovedTxn(row.txnId, row.username, row.fund, row.amount)]
            && RejectedRows([row], batch) == []
  {
    var clean := CleanRow(row.txnId, row.amount);
    var raw := BankRow(row.txnId, cell);
    OneRowBatch(raw, toNumeric, clean);
    ApprovedByOneRow(row, raw, toNumeric, clean);
  }

  /** The same claim against a different statement amount is rejected, the reason naming both amounts. */
  lemma ExampleMismatch(row: PendingRow, cell: string, toNumeric: string -> Option<Amount>, bank: Amount)
    requires IsDigits(row.txnId) && IsDigits(cell) && toNumeric(cell) == Some(bank) && bank != row.amount
    ensures Decide(row, Clean([BankRow(row.txnId, cell)], toNumeric)) == Reject(MismatchReason(bank, row.amount))
  {
    DigitsClean(row.txnId);
    DigitsClean(cell);
    PlainMismatch(row, cell, toNumeric, bank);
  }

  lemma PlainMismatch(row: PendingRow, cell: string, toNumeric: string -> Option<Amount>, bank: Amount)
    requires Trim(row.txnId) == row.txnId && NormaliseId(row.txnId) == row.txnId
    requires Tidy(cell) == cell && toNumeric(cell) == Some(bank) && bank != row.amount
    ensures Decide(row, Clean([BankRow(row.txnId, cell)], toNumeric)) == Reject(MismatchReason(bank, row.amount))
  {
    var clean := CleanRow(row.txnId, bank);
    OneRowBatch(BankRow(row.txnId, cell), toNumeric, clean);
    DecideOneRow(row, clean);
  }

  /** Against an empty statement every claim is rejected as not found. */
  lemma ExampleEmptyStatement(row: PendingRow, toNumeric: string -> Option<Amount>)
    ensures Decide(row, Clean([], toNumeric)) == Reject(NotFound)
  {
  }

  /**
   * The registry is not consulted while matching: two queued claims carrying the same id, for two
   * different logs, are both approved by one statement row, and the id is registered once.
   */
  lemma SameIdApprovedTwice(first: PendingRow, second: PendingRow, cell: string, toNumeric: string -> Option<Amount>)
    requires first.txnId == second.txnId && first.logId != second.logId && first.amount == second.amount
    requires IsDigits(first.txnId) && IsDigits(cell) && toNumeric(cell) == Some(first.amount)
    ensures var batch := Clean([BankRow(first.txnId, cell)], toNumeric);
            |ApprovedRows([first, second], batch)| == 2 && ApprovedIds([first, second], batch) == {first.txnId}
  {
    DigitsClean(first.txnId);
    DigitsClean(cell);
    PlainApprovedTwice(first, second, cell, toNumeric);
  }

  lemma PlainApprovedTwice(first: PendingRow, second: PendingRow, cell: string, toNumeric: string -> Option<Amount>)
    requires first.txnId == second.txnId && first.amount == second.amount
    requires Trim(first.txnId) == first.txnId && NormaliseId(first.txnId) == first.txnId
    requires Tidy(cell) == cell && toNumeric(cell) == Some(first.amount)
    ensures var batch := Clean([BankRow(first.txnId, cell)], toNumeric);
            |ApprovedRows([first, second], batch)| == 2 && ApprovedIds([first, second], batch) == {first.txnId}
  {
    var clean := CleanRow(first.txnId, first.amount);
    OneRowBatch(BankRow(first.txnId, cell), toNumeric, clean);
    DecideOneRow(first, clean);
    DecideOneRow(second, clean);
    BothApprovedRows(first, second, [clean]);
    BothApprovedIds(first, second, [clean]);
  }

  lemma BothApprovedRows(first: PendingRow, second: PendingRow, batch: seq<CleanRow>)
    requires Decide(first, batch) == Approve && Decide(second, batch) == Approve
    ensures |ApprovedRows([first, second], batch)| == 2
  {
    var both := [first, second];
    assert both[1..] == [second];
    FilterMapSingle(second, ApprovedEntry(batch));
  }

  lemma BothApprovedIds(first: PendingRow, second: PendingRow, batch: seq<CleanRow>)
    requires Decide(first, batch) == Approve && Decide(second, batch) == Approve
    requires ClaimedId(first) == ClaimedId(second)
    ensures ApprovedIds([first, second], batch) == {ClaimedId(first)}
  {
    assert Approves(batch)(first) && Approves(batch)(second);
    KeysWherePair(first, second, Approves(batch), ClaimedId);
  }

  /**
   * The claim side is never cut at a dot: a claim stored as "<digits>.0" finds no row even though
   * the statement shows the same text, because only the statement's id loses its ".0".
   */
  lemma ExportSuffixOnlyOnBankSide(row: PendingRow, id: string, cell: string, toNumeric: string -> Option<Amount>, bank: Amount)
    requires IsDigits(id) && row.txnId == id + ".0" && IsDigits(cell) && toNumeric(cell) == Some(bank)
    ensures Decide(row, Clean([BankRow(row.txnId, cell)], toNumeric)) == Reject(NotFound)
  {
    DotZeroKept(row, id);
    DigitsClean(cell);
    PlainSuffixNotFound(row, id, cell, toNumeric, bank);
  }

  lemma DotZeroKept(row: PendingRow, id: string)
    requires IsDigits(id) && row.txnId == id + ".0"
    ensures NormaliseId(row.txnId) == id && ClaimedId(row) == row.txnId && |row.txnId| != |id|
  {
    var suffix := ".0";
    assert suffix != [] && suffix[0] == '.' && All(suffix[1..], IsDigit);
    SuffixedIdKept(row, id, suffix);
  }

  lemma PlainSuffixNotFound(row: PendingRow, id: string, cell: string, toNumeric: string -> Option<Amount>, bank: Amount)
    requires NormaliseId(row.txnId) == id && ClaimedId(row) == row.txnId && |row.txnId| != |id|
    requires Tidy(cell) == cell && toNumeric(cell) == Some(bank)
    ensures Decide(row, Clean([BankRow(row.txnId, cell)], toNumeric)) == Reject(NotFound)
  {
    var clean := CleanRow(id, bank);
    OneRowBatch(BankRow(row.txnId, cell), toNumeric, clean);
    assert First([clean], HasId(ClaimedId(row))).None?;
  }

  lemma SuffixedClaimKept(row: PendingRow, id: string, suffix: string)
    requires IsDigits(id) && suffix != [] && suffix[0] == '.' && All(suffix[1..], IsDigit)
    requires row.txnId == id + suffix
    ensures ClaimedId(row) == row.txnId
  {
    var text := row.txnId;
    var last := text[|text| - 1];
    assert last == suffix[|suffix| - 1];
    if |suffix| > 1 { assert suffix[|suffix| - 1] == suffix[1..][|suffix| - 2]; }
    assert text[0] == id[0];
    StripUnpadded(text, IsSpace);
  }

  lemma SuffixedIdKept(row: PendingRow, id: string, suffix: string)
    requires IsDigits(id) && suffix != [] && suffix[0] == '.' && All(suffix[1..], IsDigit)
    requires row.txnId == id + suffix
    ensures NormaliseId(row.txnId) == id && |row.txnId| > |id|
    ensures ClaimedId(row) == row.txnId
  {
    NormaliseBareId(id, suffix);
    SuffixedClaimKept(row, id, suffix);
  }
}
