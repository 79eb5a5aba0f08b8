/**
 * The ledger store of core/db.py. The tables are fields of one `Ledger` object; every store
 * function that writes becomes a method changing exactly the fields it names, and a `with conn:`
 * block or a commit-or-rollback becomes: apply the writes, and on a failure put back the tables
 * saved at the start. Storage failures that the source can only catch (a locked file, a full
 * disk) arrive as a `fault` parameter. The read queries are functions of the table values.
 */
module Db {
  import opened Wrappers
  import opened Seqs
  import opened Text
  import opened Money
  import opened Schema
  import opened BankStatement
  import opened Reconcile

  /** A storage error raised while pending row `at` is processed; `at == |pending|` is a failed commit. */
  datatype Fault = Fault(at: nat, message: string)

  /** The `(success, found_txns_details, rejected_txns, error)` tuple of `verify_transactions`. */
  datatype Report = Report(success: bool, approved: seq<ApprovedTxn>, rejected: seq<RejectedTxn>, error: Option<string>)

  /** The `(success, error_message)` pair of the other writers. */
  datatype Outcome = Outcome(success: bool, error: Option<string>)

  predicate FaultsWithin(fault: Option<Fault>, n: nat) {
    fault.Some? && fault.value.at <= n
  }

  /** The account `setup_database` adds when no user is named "admin". */
  function DefaultAdmin(id: UserId): User {
    User(id, "admin", Admin, "+11234567890", Some("admin@example.com"))
  }

  predicate HasAdmin(users: seq<User>) {
    exists k :: 0 <= k < |users| && users[k].username == "admin"
  }

  /** Some user already holds the default admin's phone, which the UNIQUE `PhoneNumber` column reserves. */
  predicate AdminPhoneTaken(users: seq<User>) {
    exists k :: 0 <= k < |users| && users[k].phone == DefaultAdmin(0).phone
  }

  /** No two users share a phone, as the UNIQUE constraint on `PhoneNumber` keeps the table. */
  predicate PhonesUnique(users: seq<User>) {
    forall i, j :: 0 <= i < j < |users| ==> users[i].phone != users[j].phone
  }

  /**
   * The `Users` table after `setup_database`: the default admin is inserted when no user is named
   * "admin", and that insert adds nobody when another user already holds the admin's phone.
   */
  function SeedUsers(existing: seq<User>, nextUserId: UserId): seq<User> {
    if HasAdmin(existing) || AdminPhoneTaken(existing) then existing else existing + [DefaultAdmin(nextUserId)]
  }

  /** The IntegrityError `setup_database` raises when the admin's insert breaks the UNIQUE phone. */
  function SetupError(existing: seq<User>): (e: Option<string>)
    ensures e.Some? <==> !HasAdmin(existing) && AdminPhoneTaken(existing)
  {
    if !HasAdmin(existing) && AdminPhoneTaken(existing) then Some("UNIQUE constraint failed: Users.PhoneNumber") else None
  }

  /**
   * Setup never gives two users one phone; afterwards there is an account named "admin" exactly
   * when setup did not fail, and setup adds at most that one account.
   */
  lemma SeedKeepsPhonesUnique(existing: seq<User>, nextUserId: UserId)
    requires PhonesUnique(existing)
    ensures PhonesUnique(SeedUsers(existing, nextUserId))
    ensures HasAdmin(SeedUsers(existing, nextUserId)) <==> SetupError(existing).None?
    ensures var seeded := SeedUsers(existing, nextUserId);
            seeded[..|existing|] == existing && |seeded| <= |existing| + 1
  {
    var seeded := SeedUsers(existing, nextUserId);
    if seeded != existing {
      assert seeded[|existing|].username == "admin";
      forall i, j | 0 <= i < j < |seeded| ensures seeded[i].phone != seeded[j].phone {
        if j == |existing| {
          assert seeded[i] == existing[i];
        }
      }
    }
  }

  function MarkPending(txnId: string): PaymentLog -> PaymentLog {
    (l: PaymentLog) => l.(status := PendingVerification, txnId := Some(txnId))
  }

  // ---- Inserting planned logs ----

  /** A planned log the insert accepts: `DueDate` is NOT NULL and the status passes the CHECK. */
  predicate Storable(n: NewLog) {
    n.dueDate.Some? && CheckAllows(n.status)
  }

  function Unstorable(): NewLog -> bool {
    (n: NewLog) => !Storable(n)
  }

  predicate Insertable(create: seq<NewLog>) {
    forall j :: 0 <= j < |create| ==> Storable(create[j])
  }

  /** The constraint SQLite reports for a planned log the insert refuses. */
  function InsertError(n: NewLog): string {
    if n.dueDate.None? then "NOT NULL constraint failed: Payment_Logs.DueDate"
    else "CHECK constraint failed: Status IN ('Paid', 'Unpaid', 'Pending Verification', 'Rejected')"
  }

  function LogRow(n: NewLog, id: LogId): PaymentLog
    requires n.dueDate.Some?
  {
    PaymentLog(id, n.userId, n.listId, n.amount, n.dueDate.value, None, n.status, None)
  }

  /** The rows the insert of `create` adds, numbered from `start` on. */
  function Inserted(create: seq<NewLog>, start: LogId): (r: seq<PaymentLog>)
    requires Insertable(create)
    ensures |r| == |create|
    ensures forall j :: 0 <= j < |r| ==> r[j] == LogRow(create[j], start + j)
  {
    seq(|create|, j requires 0 <= j < |create| => LogRow(create[j], start + j))
  }

  /** The (user, fund) pairs of `users_to_enroll`. */
  function Pairs(enroll: seq<(UserId, ListId)>): set<(UserId, ListId)> {
    set k | 0 <= k < |enroll| :: enroll[k]
  }

  // ---- Deletes ----

  /** A log `remove_member_from_fund` keeps: any log but an `Unpaid` one of that member in that fund. */
  function KeptOnRemoval(userId: UserId, listId: ListId): PaymentLog -> bool {
    (l: PaymentLog) => !(l.userId == userId && l.listId == listId && l.status == Unpaid)
  }

  function LogOutside(listId: ListId): PaymentLog -> bool {
    (l: PaymentLog) => l.listId != listId
  }

  function FundOtherThan(listId: ListId): Fund -> bool {
    (f: Fund) => f.id != listId
  }

  function MembershipsOutside(memberships: set<(UserId, ListId)>, listId: ListId): set<(UserId, ListId)> {
    set p | p in memberships && p.1 != listId
  }

  /**
   * `remove_member_from_fund` deletes exactly that member's 'Unpaid' logs of that fund: every
   * other log stays, including the pair's paid, pending and rejected history.
   */
  lemma RemovalKeepsHistory(logs: seq<PaymentLog>, userId: UserId, listId: ListId)
    ensures var r := Filter(logs, KeptOnRemoval(userId, listId));
            forall k :: 0 <= k < |logs| ==>
              (logs[k] in r <==> !(logs[k].userId == userId && logs[k].listId == listId && logs[k].status == Unpaid))
  {
  }

  /** Removing the same member from the same fund again deletes nothing more. */
  lemma RemovalIdempotent(logs: seq<PaymentLog>, userId: UserId, listId: ListId)
    ensures var once := Filter(logs, KeptOnRemoval(userId, listId));
            Filter(once, KeptOnRemoval(userId, listId)) == once
  {
    FilterFilter(logs, KeptOnRemoval(userId, listId), KeptOnRemoval(userId, listId), KeptOnRemoval(userId, listId));
  }

  /** `delete_fund` keeps a log exactly when it belongs to another fund. */
  lemma DeleteFundExact(logs: seq<PaymentLog>, listId: ListId)
    ensures var r := Filter(logs, LogOutside(listId));
            forall k :: 0 <= k < |logs| ==> (logs[k] in r <==> logs[k].listId != listId)
  {
  }

  /** Deleting a fund no log belongs to leaves the log table as it was, order included. */
  lemma DeleteUnusedFundKeepsLogs(logs: seq<PaymentLog>, listId: ListId)
    requires forall k :: 0 <= k < |logs| ==> logs[k].listId != listId
    ensures Filter(logs, LogOutside(listId)) == logs
  {
    FilterAll(logs, LogOutside(listId));
  }

  function Named(name: string): Fund -> bool {
    (f: Fund) => f.name == name
  }

  // ---- What every stored state satisfies ----

  ghost predicate LogsStorable(logs: seq<PaymentLog>, next: LogId) {
    forall k :: 0 <= k < |logs| ==> CheckAllows(logs[k].status) && logs[k].id < next
  }

  ghost predicate ClaimsBelow(claims: seq<Claim>, next: ClaimId) {
    forall k :: 0 <= k < |claims| ==> claims[k].id < next
  }

  ghost predicate FundsBelow(funds: seq<Fund>, next: ListId) {
    forall k :: 0 <= k < |funds| ==> funds[k].id < next
  }

  /** Marking a log with a status the CHECK allows, keeping its id, keeps the log table storable. */
  lemma MarkKeepsStorable(logs: seq<PaymentLog>, id: LogId, mark: PaymentLog -> PaymentLog, status: Status, next: LogId)
    requires LogsStorable(logs, next) && CheckAllows(status)
    requires forall l :: mark(l).id == l.id && mark(l).status == status
    ensures LogsStorable(UpdateLog(logs, id, mark), next)
  {
  }

  /** Deleting claims keeps every remaining claim id below the next one. */
  lemma DeleteKeepsBelow(claims: seq<Claim>, keep: Claim -> bool, next: ClaimId)
    requires ClaimsBelow(claims, next)
    ensures ClaimsBelow(Filter(claims, keep), next)
  {
    var r := Filter(claims, keep);
    forall k | 0 <= k < |r| ensures r[k].id < next {
      var j :| 0 <= j < |claims| && claims[j] == r[k];
    }
  }

  /** Settling one pending row stores only 'Paid' or 'Rejected', changes no log id, and only deletes claims. */
  lemma ApplyKeepsStorable(t: Tables, row: PendingRow, d: Decision, today: Date, now: Timestamp, nextLog: LogId, nextClaim: ClaimId)
    requires LogsStorable(t.logs, nextLog) && ClaimsBelow(t.claims, nextClaim)
    ensures var a := Apply(t, row, d, today, now);
            LogsStorable(a.logs, nextLog) && ClaimsBelow(a.claims, nextClaim)
  {
    if d.Approve? {
      MarkKeepsStorable(t.logs, row.logId, MarkPaid(today), Paid, nextLog);
    } else {
      MarkKeepsStorable(t.logs, row.logId, MarkRejected(), Rejected, nextLog);
    }
    DeleteKeepsBelow(t.claims, OtherClaim(row.claimId), nextClaim);
  }

  /** A whole pass keeps the stored state within the schema's constraints. */
  lemma {:induction false} RunKeepsStorable(t: Tables, pending: seq<PendingRow>, batch: seq<CleanRow>, today: Date, now: Timestamp,
                                            nextLog: LogId, nextClaim: ClaimId)
    requires LogsStorable(t.logs, nextLog) && ClaimsBelow(t.claims, nextClaim)
    ensures var a := Run(t, pending, batch, today, now);
            LogsStorable(a.logs, nextLog) && ClaimsBelow(a.claims, nextClaim)
    decreases |pending|
  {
    if pending != [] {
      var init := pending[..|pending| - 1];
      var last := pending[|pending| - 1];
      RunKeepsStorable(t, init, batch, today, now, nextLog, nextClaim);
      ApplyKeepsStorable(Run(t, init, batch, today, now), last, Decide(last, batch), today, now, nextLog, nextClaim);
    }
  }

  class Ledger {
    var users: seq<User>
    var funds: seq<Fund>
    var memberships: set<(UserId, ListId)>
    var logs: seq<PaymentLog>
    var claims: seq<Claim>
    /** `Verified_Transactions`: the anti-replay registry, id to verification time. */
    var verified: map<string, Timestamp>
    var settings: map<string, string>
    /** The next ids AUTOINCREMENT hands out. */
    var nextFundId: ListId
    var nextLogId: LogId
    var nextClaimId: ClaimId

    /**
     * What the schema guarantees of every stored state: the Status CHECK holds (so no log is
     * 'Flagged'), and every row id is below the table's AUTOINCREMENT counter.
     */
    ghost predicate Valid()
      reads this
    {
      LogsStorable(logs, nextLogId) && ClaimsBelow(claims, nextClaimId) && FundsBelow(funds, nextFundId)
    }

    /** The three tables a reconciliation pass writes. */
    function Store(): Tables
      reads this
    {
      Tables(logs, claims, verified)
    }

    /**
     * `setup_database` over a `Users` table holding `existing` (whose next AUTOINCREMENT id is
     * `nextUserId`): every other table starts empty, and the default admin is added unless some
     * user is already named "admin" or, failing the insert with `SetupError`, already holds the
     * admin's phone.
     */
    constructor (existing: seq<User>, nextUserId: UserId)
      ensures Valid()
      ensures users == SeedUsers(existing, nextUserId)
      ensures funds == [] && memberships == {} && logs == [] && claims == []
      ensures verified == map[] && settings == map[]
    {
      users := SeedUsers(existing, nextUserId);
      funds := [];
      memberships := {};
      logs := [];
      claims := [];
      verified := map[];
      settings := map[];
      nextFundId := 1;
      nextLogId := 1;
      nextClaimId := 1;
    }

    /** `set_setting`: INSERT OR REPLACE on the key. */
    method SetSetting(key: string, value: string)
      modifies this`settings
      ensures settings == old(settings)[key := value]
    {
      settings := settings[key := value];
    }

    /** `create_fund`: the UNIQUE constraint on `ListName` refuses a second fund of the same name. */
    method CreateFund(name: string, amount: Amount, interval: Interval, dueDate: Option<Date>, vpa: Option<string>) returns (r: Outcome)
      modifies this`funds, this`nextFundId
      requires Valid()
      ensures Valid()
      ensures r.success <==> !Any(old(funds), Named(name))
      ensures r.success ==> r.error.None? && nextFundId == old(nextFundId) + 1
                            && funds == old(funds) + [Fund(old(nextFundId), name, amount, interval, vpa, dueDate)]
      ensures !r.success ==> r.error.Some? && funds == old(funds) && nextFundId == old(nextFundId)
    {
      if Any(funds, Named(name)) {
        return Outcome(false, Some("UNIQUE constraint failed: Fund_Lists.ListName"));
      }
      funds := funds + [Fund(nextFundId, name, amount, interval, vpa, dueDate)];
      nextFundId := nextFundId + 1;
      r := Outcome(true, None);
    }

    /**
     * `enroll_members`: the memberships (INSERT OR IGNORE, so a pair already present is no
     * error) and then the planned logs, in one transaction. A planned log without a due date or
     * with a status the CHECK refuses makes the whole call fail and nothing is written.
     */
    method EnrollMembers(enroll: seq<(UserId, ListId)>, create: seq<NewLog>, fault: Option<string>) returns (r: Outcome)
      modifies this`memberships, this`logs, this`nextLogId
      requires Valid()
      ensures Valid()
      ensures r.success <==> fault.None? && Insertable(create)
      ensures r.success ==> r.error.None? && memberships == old(memberships) + Pairs(enroll)
                            && logs == old(logs) + Inserted(create, old(nextLogId))
                            && nextLogId == old(nextLogId) + |create|
      ensures !r.success ==> memberships == old(memberships) && logs == old(logs) && nextLogId == old(nextLogId)
      ensures fault.Some? ==> r.error == fault
      ensures fault.None? && !Insertable(create) ==> r.error == Some(InsertError(First(create, Unstorable()).value))
    {
      if fault.Some? {
        return Outcome(false, fault);
      }
      var savedMemberships, savedLogs, savedNext := memberships, logs, nextLogId;
      memberships := memberships + Pairs(enroll);
      var j := 0;
      while j < |create|
        invariant 0 <= j <= |create|
        invariant Valid()
        invariant forall k :: 0 <= k < j ==> Storable(create[k])
        invariant logs == savedLogs + Inserted(create[..j], savedNext) && nextLogId == savedNext + j
        invariant memberships == savedMemberships + Pairs(enroll)
      {
        var n := create[j];
        if !Storable(n) {
          memberships, logs, nextLogId := savedMemberships, savedLogs, savedNext;
          FirstAt(create, Unstorable(), j);
          return Outcome(false, Some(InsertError(n)));
        }
        assert create[..j + 1] == create[..j] + [n];
        logs := logs + [LogRow(n, nextLogId)];
        nextLogId := nextLogId + 1;
        j := j + 1;
      }
      assert create[..j] == create;
      r := Outcome(true, None);
    }

    /** `remove_member_from_fund`: the membership row and that member's `Unpaid` logs of that fund. */
    method RemoveMemberFromFund(userId: UserId, listId: ListId, fault: Option<string>) returns (r: Outcome)
      modifies this`memberships, this`logs
      requires Valid()
      ensures Valid()
      ensures r.success <==> fault.None?
      ensures fault.Some? ==> r.error == fault && memberships == old(memberships) && logs == old(logs)
      ensures fault.None? ==> r.error.None? && memberships == old(memberships) - {(userId, listId)}
                              && logs == Filter(old(logs), KeptOnRemoval(userId, listId))
    {
      if fault.Some? {
        return Outcome(false, fault);
      }
      memberships := memberships - {(userId, listId)};
      logs := Filter(logs, KeptOnRemoval(userId, listId));
      r := Outcome(true, None);
    }

    /**
     * `delete_fund`: the fund's logs, memberships and row, in one transaction. Queued claims are
     * not touched, so a claim for a deleted log stays behind, unjoinable.
     */
    method DeleteFund(listId: ListId, fault: Option<string>) returns (r: Outcome)
      modifies this`logs, this`memberships, this`funds
      requires Valid()
      ensures Valid()
      ensures r.success <==> fault.None?
      ensures fault.Some? ==> r.error == fault && logs == old(logs) && memberships == old(memberships) && funds == old(funds)
      ensures fault.None? ==> r.error.None? && logs == Filter(old(logs), LogOutside(listId))
                              && memberships == MembershipsOutside(old(memberships), listId)
                              && funds == Filter(old(funds), FundOtherThan(listId))
    {
      if fault.Some? {
        return Outcome(false, fault);
      }
      logs := Filter(logs, LogOutside(listId));
      memberships := MembershipsOutside(memberships, listId);
      funds := Filter(funds, FundOtherThan(listId));
      r := Outcome(true, None);
    }

    /** `clear_verified_transactions`: the whole registry, or nothing on failure. */
    method ClearVerifiedTransactions(fault: Option<string>) returns (r: Outcome)
      modifies this`verified
      ensures r.success <==> fault.None?
      ensures fault.Some? ==> r.error == fault && verified == old(verified)
      ensures fault.None? ==> r.error.None? && verified == map[]
    {
      if fault.Some? {
        return Outcome(false, fault);
      }
      verified := map[];
      r := Outcome(true, None);
    }

    /**
     * `submit_transaction_for_verification`: both writes or neither. The log (if any) with that
     * id moves to 'Pending Verification' with the id recorded, and one claim is queued; the log's
     * existence is not checked.
     */
    method SubmitTransactionForVerification(logId: LogId, txnId: string, submitted: Timestamp, fault: Option<string>) returns (r: Outcome)
      modifies this`logs, this`claims, this`nextClaimId
      requires Valid()
      ensures Valid()
      ensures r.success <==> fault.None?
      ensures fault.Some? ==> r.error == fault && logs == old(logs) && claims == old(claims) && nextClaimId == old(nextClaimId)
      ensures fault.None? ==> r.error.None? && logs == UpdateLog(old(logs), logId, MarkPending(txnId))
                              && claims == old(claims) + [Claim(old(nextClaimId), logId, txnId, submitted)]
                              && nextClaimId == old(nextClaimId) + 1
    {
      if fault.Some? {
        return Outcome(false, fault);
      }
      logs := UpdateLog(logs, logId, MarkPending(txnId));
      claims := claims + [Claim(nextClaimId, logId, txnId, submitted)];
      nextClaimId := nextClaimId + 1;
      r := Outcome(true, None);
    }

    /**
     * The table updates of the matching loop for one pending row once it is decided: on approval
     * mark its log 'Paid' with today's date and register its id if absent; on rejection mark the
     * log 'Rejected'; either way delete its claim.
     */
    method Settle(row: PendingRow, d: Decision, today: Date, now: Timestamp)
      modifies this`logs, this`claims, this`verified
      ensures Store() == Apply(old(Store()), row, d, today, now)
    {
      var id := ClaimedId(row);
      if d.Approve? {
        logs := UpdateLog(logs, row.logId, MarkPaid(today));
        if id !in verified {
          verified := verified[id := now];
        }
      } else {
        logs := UpdateLog(logs, row.logId, MarkRejected());
      }
      claims := Filter(claims, OtherClaim(row.claimId));
    }

    /** The matching loop over the first `count` pending rows, in order, building the two result lists. */
    method SettleFirst(pending: seq<PendingRow>, count: nat, batch: seq<CleanRow>, today: Date, now: Timestamp)
      returns (approved: seq<ApprovedTxn>, rejected: seq<RejectedTxn>)
      requires count <= |pending|
      modifies this`logs, this`claims, this`verified
      ensures approved == ApprovedRows(pending[..count], batch) && rejected == RejectedRows(pending[..count], batch)
      ensures Store() == Run(old(Store()), pending[..count], batch, today, now)
    {
      ghost var saved := Store();
      approved, rejected := [], [];
      var i := 0;
      while i < count
        invariant 0 <= i <= count
        invariant Store() == Run(saved, pending[..i], batch, today, now)
        invariant approved == ApprovedRows(pending[..i], batch) && rejected == RejectedRows(pending[..i], batch)
      {
        var row := pending[i];
        RunStep(saved, pending, i, batch, today, now);
        ResultsStep(pending, i, batch);
        var d := Decide(row, batch);
        Settle(row, d, today, now);
        RowEntries(row, batch, d);
        if d.Approve? {
          approved := approved + [ApprovedTxn(ClaimedId(row), row.username, row.fund, row.amount)];
        } else {
          rejected := rejected + [RejectedTxn(ClaimedId(row), row.username, row.amount, d.reason)];
        }
        i := i + 1;
      }
    }

    /**
     * The `with conn:` block of `verify_transactions`: every pending row settled in order against
     * the cleaned statement, the result lists built alongside. A failure at row `i`, or at the
     * commit, puts the three tables back as they were and reports the error with empty lists.
     */
    method MatchClaims(pending: seq<PendingRow>, batch: seq<CleanRow>, today: Date, now: Timestamp, fault: Option<Fault>) returns (r: Report)
      modifies this`logs, this`claims, this`verified
      ensures FaultsWithin(fault, |pending|) ==> r == Report(false, [], [], Some(fault.value.message)) && Store() == old(Store())
      ensures !FaultsWithin(fault, |pending|) ==>
                r == Report(true, ApprovedRows(pending, batch), RejectedRows(pending, batch), None)
                && Store() == Run(old(Store()), pending, batch, today, now)
    {
      var saved := Store();
      assert saved == old(Store());
      if FaultsWithin(fault, |pending|) {
        // the rows before the failing one are settled, then the transaction is rolled back
        var _, _ := SettleFirst(pending, fault.value.at, batch, today, now);
        logs, claims, verified := saved.logs, saved.claims, saved.registry;
        assert Store() == saved;
        return Report(false, [], [], Some(fault.value.message));
      }
      var approved, rejected := SettleFirst(pending, |pending|, batch, today, now);
      assert pending[..|pending|] == pending;
      r := Report(true, approved, rejected, None);
    }

    /**
     * `verify_transactions`: clean the statement, then match every pending row. Without a failure
     * the tables end as `Run` describes and the two result lists are `ApprovedRows` and
     * `RejectedRows`; a failure leaves all three tables as they were.
     */
    method VerifyTransactions(pending: seq<PendingRow>, rows: seq<BankRow>, toNumeric: string -> Option<Amount>,
                              today: Date, now: Timestamp, fault: Option<Fault>) returns (r: Report)
      modifies this`logs, this`claims, this`verified
      requires Valid()
      ensures Valid()
      ensures FaultsWithin(fault, |pending|) ==> r == Report(false, [], [], Some(fault.value.message)) && Store() == old(Store())
      ensures !FaultsWithin(fault, |pending|) ==>
                var batch := Clean(rows, toNumeric);
                r == Report(true, ApprovedRows(pending, batch), RejectedRows(pending, batch), None)
                && Store() == Run(old(Store()), pending, batch, today, now)
    {
      var batch := Clean(rows, toNumeric);
      ghost var before := Store();
      r := MatchClaims(pending, batch, today, now, fault);
      if !FaultsWithin(fault, |pending|) {
        RunKeepsStorable(before, pending, batch, today, now, nextLogId, nextClaimId);
      }
    }
  }
}
