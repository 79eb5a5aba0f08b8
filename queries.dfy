/**
 * The read queries of core/db.py, as functions of the table values. A query's rows come back in
 * table (rowid) order; the `ORDER BY DueDate` of the two member queries is not modelled.
 */
module Queries {
  import opened Wrappers
  import opened Seqs
  import opened Money
  import opened Schema
  import opened BankStatement
  import opened Reconcile
  import opened Db

  // ---- Settings and the registry ----

  /** `get_setting`: the stored value, or None for a key never set. */
  function GetSetting(settings: map<string, string>, key: string): Option<string> {
    if key in settings then Some(settings[key]) else None
  }

  /** `set_setting` then `get_setting` gives back the value just set and leaves every other key alone. */
  lemma SettingRoundTrip(settings: map<string, string>, key: string, value: string, other: string)
    ensures GetSetting(settings[key := value], key) == Some(value)
    ensures other != key ==> GetSetting(settings[key := value], other) == GetSetting(settings, other)
  {
  }

  /** `is_transaction_id_verified`. */
  predicate IsTransactionIdVerified(verified: map<string, Timestamp>, id: string) {
    id in verified
  }

  /**
   * After a reconciliation pass an id counts as verified exactly when it was before or the pass
   * approved a claim under it; an id verified before keeps its timestamp.
   */
  lemma VerifiedAfterPass(t: Tables, pending: seq<PendingRow>, batch: seq<CleanRow>, today: Date, now: Timestamp, id: string)
    ensures var after := Run(t, pending, batch, today, now).registry;
            IsTransactionIdVerified(after, id) <==> IsTransactionIdVerified(t.registry, id) || id in ApprovedIds(pending, batch)
    ensures IsTransactionIdVerified(t.registry, id) ==> Run(t, pending, batch, today, now).registry[id] == t.registry[id]
  {
    RegistryAfter(t, pending, batch, today, now);
  }

  // ---- Look-ups used by the dashboards ----

  function Triple(userId: UserId, listId: ListId, dueDate: Date): PaymentLog -> bool {
    (l: PaymentLog) => l.userId == userId && l.listId == listId && l.dueDate == dueDate
  }

  /**
   * `payment_log_exists`. The fund's due date may be NULL, and `DueDate = NULL` holds for no
   * row, so a missing due date finds nothing.
   */
  predicate PaymentLogExists(logs: seq<PaymentLog>, userId: UserId, listId: ListId, dueDate: Option<Date>) {
    dueDate.Some? && Any(logs, Triple(userId, listId, dueDate.value))
  }

  /** The logs `enroll_members` inserts are found by `payment_log_exists` afterwards, and none that existed is lost. */
  lemma {:induction false} InsertedLogsExist(logs: seq<PaymentLog>, create: seq<NewLog>, start: LogId, j: nat)
    requires Insertable(create) && j < |create|
    ensures var n := create[j];
            PaymentLogExists(logs + Inserted(create, start), n.userId, n.listId, n.dueDate)
  {
    var all := logs + Inserted(create, start);
    var n := create[j];
    assert all[|logs| + j] == LogRow(n, start + j);
    assert Triple(n.userId, n.listId, n.dueDate.value)(all[|logs| + j]);
  }

  /** `get_member_users`: Member accounts keyed by phone number; a later row wins a shared number. */
  function MemberUsers(users: seq<User>): map<string, MemberInfo>
    decreases |users|
  {
    if users == [] then map[]
    else
      var last := users[|users| - 1];
      var earlier := MemberUsers(users[..|users| - 1]);
      if last.role == Member then earlier[last.phone := InfoOf(last)] else earlier
  }

  /** A value of the dictionary `get_member_users` returns. */
  datatype MemberInfo = MemberInfo(userId: UserId, username: string, email: Option<string>)

  function InfoOf(u: User): MemberInfo {
    MemberInfo(u.id, u.username, u.email)
  }

  predicate IsMemberWithPhone(u: User, phone: string) {
    u.role == Member && u.phone == phone
  }

  /** The keys are exactly the phone numbers of Member accounts; admins are never listed. */
  lemma {:induction false} MemberUsersKeys(users: seq<User>, phone: string)
    ensures phone in MemberUsers(users) <==> exists k :: 0 <= k < |users| && IsMemberWithPhone(users[k], phone)
    decreases |users|
  {
    if users != [] {
      var init := users[..|users| - 1];
      MemberUsersKeys(init, phone);
      if exists k :: 0 <= k < |init| && IsMemberWithPhone(init[k], phone) {
        var k :| 0 <= k < |init| && IsMemberWithPhone(init[k], phone);
        assert users[k] == init[k];
      }
      if exists k :: 0 <= k < |users| && IsMemberWithPhone(users[k], phone) {
        var k :| 0 <= k < |users| && IsMemberWithPhone(users[k], phone);
        if k < |init| {
          assert init[k] == users[k];
        }
      }
    }
  }

  /** A number's entry describes the last Member account with that number. */
  lemma {:induction false} MemberUsersLatest(users: seq<User>, k: nat)
    requires k < |users| && users[k].role == Member
    requires forall j :: k < j < |users| ==> !IsMemberWithPhone(users[j], users[k].phone)
    ensures users[k].phone in MemberUsers(users) && MemberUsers(users)[users[k].phone] == InfoOf(users[k])
    decreases |users|
  {
    if k < |users| - 1 {
      var init := users[..|users| - 1];
      assert init[k] == users[k];
      MemberUsersLatest(init, k);
    }
  }

  /** `get_fund_vpa`: the VPA of the fund with that name; None when there is no such fund or its VPA is NULL. */
  function FundVpa(funds: seq<Fund>, name: string): Option<string> {
    match First(funds, Named(name))
    case None => None
    case Some(f) => f.vpa
  }

  /** A fund `create_fund` has just added is found by name with the VPA it was given. */
  lemma FundVpaOfCreated(funds: seq<Fund>, f: Fund)
    requires !Any(funds, Named(f.name))
    ensures FundVpa(funds + [f], f.name) == f.vpa
  {
    var all := funds + [f];
    forall i | 0 <= i < |funds| ensures !Named(f.name)(all[i]) {
      assert all[i] == funds[i];
    }
    FirstAt(all, Named(f.name), |funds|);
  }

  /** A row of `get_all_payment_logs`: a log joined with its member and its fund. */
  datatype LogView = LogView(log: PaymentLog, username: string, phone: string, fund: string)

  function ViewEntry(users: seq<User>, funds: seq<Fund>): PaymentLog -> Option<LogView> {
    (l: PaymentLog) =>
      match (FindUser(users, l.userId), FindFund(funds, l.listId))
      case (Some(u), Some(f)) => Some(LogView(l, u.username, u.phone, f.name))
      case _ => None
  }

  /** `get_all_payment_logs`: every log whose member and fund both exist (an inner join). */
  function AllPaymentLogs(logs: seq<PaymentLog>, users: seq<User>, funds: seq<Fund>): seq<LogView> {
    FilterMap(logs, ViewEntry(users, funds))
  }

  /** Every overview row is a stored log with its own member's name and phone and its own fund's name. */
  lemma OverviewRowJoined(logs: seq<PaymentLog>, users: seq<User>, funds: seq<Fund>, v: LogView)
    requires v in AllPaymentLogs(logs, users, funds)
    ensures v.log in logs
    ensures var u := FindUser(users, v.log.userId);
            u.Some? && v.username == u.value.username && v.phone == u.value.phone
    ensures var f := FindFund(funds, v.log.listId);
            f.Some? && v.fund == f.value.name
  {
    FilterMapOrigin(logs, ViewEntry(users, funds), v);
  }

  /** Every log whose member and fund exist is in the overview. */
  lemma OverviewListsLog(logs: seq<PaymentLog>, users: seq<User>, funds: seq<Fund>, k: nat)
    requires k < |logs| && FindUser(users, logs[k].userId).Some? && FindFund(funds, logs[k].listId).Some?
    ensures var u := FindUser(users, logs[k].userId).value;
            LogView(logs[k], u.username, u.phone, FindFund(funds, logs[k].listId).value.name) in AllPaymentLogs(logs, users, funds)
  {
    FilterMapKeeps(logs, ViewEntry(users, funds), k);
  }

  // ---- The claim queue ----

  /**
   * The row `get_unverified_transactions` makes of a claim: the join with its log, the log's
   * member and the log's fund, kept only while the log is 'Pending Verification'.
   */
  function PendingEntry(logs: seq<PaymentLog>, users: seq<User>, funds: seq<Fund>): Claim -> Option<PendingRow> {
    (c: Claim) =>
      match FindLog(logs, c.logId)
      case None => None
      case Some(l) =>
        if l.status != PendingVerification then None
        else
          match (FindUser(users, l.userId), FindFund(funds, l.listId))
          case (Some(u), Some(f)) => Some(PendingRow(c.id, l.id, c.txnId, u.username, f.name, l.amount))
          case _ => None
  }

  /** `get_unverified_transactions`. */
  function UnverifiedTransactions(claims: seq<Claim>, logs: seq<PaymentLog>, users: seq<User>, funds: seq<Fund>): seq<PendingRow> {
    FilterMap(claims, PendingEntry(logs, users, funds))
  }

  /** Marking a log finds the marked row under the same id. */
  lemma {:induction false} FindLogUpdated(logs: seq<PaymentLog>, id: LogId, txnId: string)
    requires FindLog(logs, id).Some?
    ensures FindLog(UpdateLog(logs, id, MarkPending(txnId)), id) == Some(MarkPending(txnId)(FindLog(logs, id).value))
  {
    FirstUpdated(logs, UpdateLog(logs, id, MarkPending(txnId)), HasLogId(id), MarkPending(txnId));
  }

  /**
   * A submission whose log, member and fund exist is listed for reconciliation: the claim just
   * queued comes last, carrying the submitted id and the log's Amount.
   */
  lemma SubmittedClaimListed(claims: seq<Claim>, logs: seq<PaymentLog>, users: seq<User>, funds: seq<Fund>,
                             logId: LogId, txnId: string, submitted: Timestamp, claimId: ClaimId)
    requires FindLog(logs, logId).Some?
    requires FindUser(users, FindLog(logs, logId).value.userId).Some?
    requires FindFund(funds, FindLog(logs, logId).value.listId).Some?
    ensures var l := FindLog(logs, logId).value;
            var pending := UnverifiedTransactions(claims + [Claim(claimId, logId, txnId, submitted)],
                                                  UpdateLog(logs, logId, MarkPending(txnId)), users, funds);
            pending != [] && pending[|pending| - 1]
              == PendingRow(claimId, logId, txnId, FindUser(users, l.userId).value.username,
                            FindFund(funds, l.listId).value.name, l.amount)
  {
    var c := Claim(claimId, logId, txnId, submitted);
    var after := UpdateLog(logs, logId, MarkPending(txnId));
    FindLogUpdated(logs, logId, txnId);
    FilterMapAppend(claims, [c], PendingEntry(after, users, funds));
    FilterMapSingle(c, PendingEntry(after, users, funds));
  }

  /** After a pass over the listed claims, no claim left in the queue is one that was listed. */
  lemma ListedClaimsCleared(t: Tables, users: seq<User>, funds: seq<Fund>, batch: seq<CleanRow>, today: Date, now: Timestamp)
    ensures var pending := UnverifiedTransactions(t.claims, t.logs, users, funds);
            var left := Run(t, pending, batch, today, now).claims;
            forall c :: c in left ==> c in t.claims && PendingEntry(t.logs, users, funds)(c).None?
  {
    var pending := UnverifiedTransactions(t.claims, t.logs, users, funds);
    ClaimsAfter(t, pending, batch, today, now);
    var left := Run(t, pending, batch, today, now).claims;
    forall c | c in left ensures c in t.claims && PendingEntry(t.logs, users, funds)(c).None? {
      var k :| 0 <= k < |t.claims| && t.claims[k] == c;
      if PendingEntry(t.logs, users, funds)(c).Some? {
        FilterMapKeeps(t.claims, PendingEntry(t.logs, users, funds), k);
        assert false;
      }
    }
  }

  ghost predicate DistinctClaimIds(claims: seq<Claim>) {
    forall i, j :: 0 <= i < j < |claims| ==> claims[i].id != claims[j].id
  }

  /** Under the primary key, two claim rows with the same id are the same row. */
  lemma SameIdSameClaim(claims: seq<Claim>, i: int, j: int)
    requires DistinctClaimIds(claims)
    requires 0 <= i < |claims| && 0 <= j < |claims| && claims[i].id == claims[j].id
    ensures i == j
  {
  }

  /** A listed row carries the id of the claim it was made from. */
  lemma PendingEntryNamesClaim(logs: seq<PaymentLog>, users: seq<User>, funds: seq<Fund>, c: Claim)
    requires PendingEntry(logs, users, funds)(c).Some?
    ensures PendingEntry(logs, users, funds)(c).value.claimId == c.id
  {
  }

  /** A claim id the pass resolves belongs to a claim that was listed. */
  lemma ResolvedAreListed(claims: seq<Claim>, logs: seq<PaymentLog>, users: seq<User>, funds: seq<Fund>, id: ClaimId)
    requires id in Resolved(UnverifiedTransactions(claims, logs, users, funds))
    ensures exists j :: 0 <= j < |claims| && claims[j].id == id && PendingEntry(logs, users, funds)(claims[j]).Some?
  {
    var pending := UnverifiedTransactions(claims, logs, users, funds);
    var i :| 0 <= i < |pending| && Every(pending[i]) && ClaimIdOf(pending[i]) == id;
    FilterMapOrigin(claims, PendingEntry(logs, users, funds), pending[i]);
    var j :| 0 <= j < |claims| && PendingEntry(logs, users, funds)(claims[j]) == Some(pending[i]);
    PendingEntryNamesClaim(logs, users, funds, claims[j]);
  }

  /** With distinct claim ids (the primary key), every claim that was not listed stays queued. */
  lemma UnlistedClaimsKept(t: Tables, users: seq<User>, funds: seq<Fund>, batch: seq<CleanRow>, today: Date, now: Timestamp, k: nat)
    requires DistinctClaimIds(t.claims)
    requires k < |t.claims| && PendingEntry(t.logs, users, funds)(t.claims[k]).None?
    ensures t.claims[k] in Run(t, UnverifiedTransactions(t.claims, t.logs, users, funds), batch, today, now).claims
  {
    var pending := UnverifiedTransactions(t.claims, t.logs, users, funds);
    ClaimsAfter(t, pending, batch, today, now);
    if t.claims[k].id in Resolved(pending) {
      ResolvedAreListed(t.claims, t.logs, users, funds, t.claims[k].id);
      var j :| 0 <= j < |t.claims| && t.claims[j].id == t.claims[k].id && PendingEntry(t.logs, users, funds)(t.claims[j]).Some?;
      SameIdSameClaim(t.claims, j, k);
      assert false;
    }
    assert Unresolved(Resolved(pending))(t.claims[k]);
  }

  // ---- A member's dues and history ----

  /** A row of `get_member_dues`. */
  datatype DueRow = DueRow(logId: LogId, fund: string, amount: Amount, dueDate: Date, status: Status)

  /** A row of `get_payment_history`. */
  datatype HistoryRow = HistoryRow(fund: string, amount: Amount, dueDate: Date, status: Status, paymentDate: Option<Date>)

  /** The statuses `get_member_dues` selects; 'Flagged' is among them though the CHECK never stores it. */
  predicate IsDue(s: Status) {
    s == Unpaid || s == Rejected || s == PendingVerification || s == Flagged
  }

  function DueEntry(funds: seq<Fund>, userId: UserId): PaymentLog -> Option<DueRow> {
    (l: PaymentLog) =>
      if l.userId == userId && IsDue(l.status) && FindFund(funds, l.listId).Some?
      then Some(DueRow(l.id, FindFund(funds, l.listId).value.name, l.amount, l.dueDate, l.status))
      else None
  }

  function HistoryEntry(funds: seq<Fund>, userId: UserId): PaymentLog -> Option<HistoryRow> {
    (l: PaymentLog) =>
      if l.userId == userId && l.status != Unpaid && FindFund(funds, l.listId).Some?
      then Some(HistoryRow(FindFund(funds, l.listId).value.name, l.amount, l.dueDate, l.status, l.paymentDate))
      else None
  }

  /** `get_member_dues`: the member's logs in a due status, joined with their fund. */
  function MemberDues(logs: seq<PaymentLog>, funds: seq<Fund>, userId: UserId): seq<DueRow> {
    FilterMap(logs, DueEntry(funds, userId))
  }

  /** `get_payment_history`: the member's logs in any status but 'Unpaid', joined with their fund. */
  function PaymentHistory(logs: seq<PaymentLog>, funds: seq<Fund>, userId: UserId): seq<HistoryRow> {
    FilterMap(logs, HistoryEntry(funds, userId))
  }

  /**
   * Where one of the member's logs (whose fund exists) shows up: among the dues exactly when it
   * is not 'Paid', in the history exactly when it is not 'Unpaid'. So a 'Paid' log is history
   * only, an 'Unpaid' one a due only, and a rejected or pending one both.
   */
  lemma LogShown(logs: seq<PaymentLog>, funds: seq<Fund>, userId: UserId, k: nat)
    requires k < |logs| && logs[k].userId == userId && FindFund(funds, logs[k].listId).Some?
    ensures var l := logs[k];
            var name := FindFund(funds, l.listId).value.name;
            DueRow(l.id, name, l.amount, l.dueDate, l.status) in MemberDues(logs, funds, userId) <==> l.status != Paid
    ensures var l := logs[k];
            var name := FindFund(funds, l.listId).value.name;
            HistoryRow(name, l.amount, l.dueDate, l.status, l.paymentDate) in PaymentHistory(logs, funds, userId) <==> l.status != Unpaid
  {
    var l := logs[k];
    var name := FindFund(funds, l.listId).value.name;
    var due := DueRow(l.id, name, l.amount, l.dueDate, l.status);
    var past := HistoryRow(name, l.amount, l.dueDate, l.status, l.paymentDate);
    if l.status != Paid {
      FilterMapKeeps(logs, DueEntry(funds, userId), k);
    } else if due in MemberDues(logs, funds, userId) {
      FilterMapOrigin(logs, DueEntry(funds, userId), due);
    }
    if l.status != Unpaid {
      FilterMapKeeps(logs, HistoryEntry(funds, userId), k);
    } else if past in PaymentHistory(logs, funds, userId) {
      FilterMapOrigin(logs, HistoryEntry(funds, userId), past);
    }
  }

  /** Every due row is one of the member's logs, in a due status. */
  lemma DuesAreTheMembers(logs: seq<PaymentLog>, funds: seq<Fund>, userId: UserId, r: DueRow)
    requires r in MemberDues(logs, funds, userId)
    ensures IsDue(r.status)
    ensures exists k :: 0 <= k < |logs| && logs[k].id == r.logId && logs[k].userId == userId && logs[k].status == r.status
  {
    FilterMapOrigin(logs, DueEntry(funds, userId), r);
  }
}
