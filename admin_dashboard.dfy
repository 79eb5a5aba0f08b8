/**
 * The decision logic of the admin dashboard (core/admin_dashboard.py): the "outstanding" status
 * filters of the financial overview and the bulk-enrollment planner, which turns a comma-separated
 * list of phone numbers into memberships and 'Unpaid' logs written by one `enroll_members` call.
 */
module AdminDashboard {
  import opened Wrappers
  import opened Seqs
  import opened Text
  import opened Money
  import opened Schema
  import opened Db
  import opened Queries

  // ---- Outstanding dues ----

  /** The statuses the overview counts as outstanding; unlike a member's dues, 'Flagged' is not one. */
  predicate IsOutstanding(s: Status) {
    s == Unpaid || s == PendingVerification || s == Rejected
  }

  function OutstandingView(): LogView -> bool {
    (v: LogView) => IsOutstanding(v.log.status)
  }

  function InFund(listId: ListId): LogView -> bool {
    (v: LogView) => v.log.listId == listId
  }

  function OutstandingInFund(listId: ListId): LogView -> bool {
    (v: LogView) => v.log.listId == listId && IsOutstanding(v.log.status)
  }

  /** The rows behind "Outstanding Dues" on the overview. */
  function Outstanding(views: seq<LogView>): seq<LogView> {
    Filter(views, OutstandingView())
  }

  /** The rows of "Outstanding Members per Fund" for one fund. */
  function FundOutstanding(views: seq<LogView>, listId: ListId): seq<LogView> {
    Filter(views, OutstandingInFund(listId))
  }

  /** The per-fund view is the overview's outstanding rows narrowed to that fund, in the same order. */
  lemma FundOutstandingNarrows(views: seq<LogView>, listId: ListId)
    ensures FundOutstanding(views, listId) == Filter(Outstanding(views), InFund(listId))
  {
    FilterFilter(views, OutstandingView(), InFund(listId), OutstandingInFund(listId));
  }

  /**
   * The overview's "outstanding" and a member's "due" differ only on 'Flagged', which the Status
   * CHECK keeps out of the table: on every storable status the two agree.
   */
  lemma OutstandingIsDue(s: Status)
    ensures IsOutstanding(s) ==> IsDue(s)
    ensures CheckAllows(s) ==> (IsOutstanding(s) <==> IsDue(s))
    ensures IsDue(Flagged) && !IsOutstanding(Flagged)
  {
  }

  // ---- The phone list ----

  /** One comma-separated piece: its trimmed text, or nothing when that is empty. */
  function PhoneEntry(piece: string): Option<string> {
    var phone := Trim(piece);
    if phone == [] then None else Some(phone)
  }

  /** `[phone.strip() for phone in s.split(',') if phone.strip()]`. */
  function ParsePhones(input: string): seq<string> {
    FilterMap(Split(input, ','), PhoneEntry)
  }

  /** A piece that holds no comma yields, if anything, a non-empty, comma-free, unpadded number. */
  lemma PhoneEntryClean(piece: string, phone: string)
    requires ',' !in piece && PhoneEntry(piece) == Some(phone)
    ensures phone != [] && ',' !in phone && Trim(phone) == phone
  {
    StripIdempotent(piece, IsSpace);
    StripKeepsAbsent(piece, IsSpace, ',');
  }

  /** Every parsed number is non-empty, holds no comma and has no surrounding white space. */
  lemma ParsedPhoneClean(input: string, phone: string)
    requires phone in ParsePhones(input)
    ensures phone != [] && ',' !in phone && Trim(phone) == phone
  {
    var pieces := Split(input, ',');
    FilterMapOrigin(pieces, PhoneEntry, phone);
    var k :| 0 <= k < |pieces| && PhoneEntry(pieces[k]) == Some(phone);
    PhoneEntryClean(pieces[k], phone);
  }

  /** Numbers that are non-empty, comma-free and unpadded are read back from their comma-joined list. */
  lemma ParsePhonesJoin(phones: seq<string>)
    requires |phones| >= 1
    requires forall k :: 0 <= k < |phones| ==> phones[k] != [] && ',' !in phones[k] && Trim(phones[k]) == phones[k]
    ensures ParsePhones(Join(phones, ',')) == phones
  {
    SplitJoin(phones, ',');
    FilterMapIdentity(phones, PhoneEntry);
  }

  // ---- The enrollment plan ----

  /** A listed number of a Member account becomes a `(User_ID, List_ID)` pair. */
  function EnrollEntry(members: map<string, MemberInfo>, listId: ListId): string -> Option<(UserId, ListId)> {
    (phone: string) => if phone in members then Some((members[phone].userId, listId)) else None
  }

  /** A listed number that is no Member's is a failed enrollment. */
  function FailedEntry(members: map<string, MemberInfo>): string -> Option<string> {
    (phone: string) => if phone in members then None else Some(phone)
  }

  /** `users_to_enroll`. */
  function EnrollPairsOf(phones: seq<string>, members: map<string, MemberInfo>, listId: ListId): seq<(UserId, ListId)> {
    FilterMap(phones, EnrollEntry(members, listId))
  }

  /** `failed_enrollments`. */
  function FailedOf(phones: seq<string>, members: map<string, MemberInfo>): seq<string> {
    FilterMap(phones, FailedEntry(members))
  }

  /** An enrolled user gets an 'Unpaid' log of the fund's amount and due date unless the store already has one for that date. */
  function PlanEntry(logs: seq<PaymentLog>, listId: ListId, amount: Amount, dueDate: Option<Date>): ((UserId, ListId)) -> Option<NewLog> {
    (pair: (UserId, ListId)) =>
      if PaymentLogExists(logs, pair.0, listId, dueDate) then None
      else Some(NewLog(pair.0, listId, amount, dueDate, Unpaid))
  }

  /** `payment_logs_to_create`. */
  function PlannedLogsOf(enroll: seq<(UserId, ListId)>, logs: seq<PaymentLog>, listId: ListId, amount: Amount, dueDate: Option<Date>): seq<NewLog> {
    FilterMap(enroll, PlanEntry(logs, listId, amount, dueDate))
  }

  /** The first planning loop: each listed number goes to `users_to_enroll` or to `failed_enrollments`. */
  method SortPhones(phones: seq<string>, members: map<string, MemberInfo>, listId: ListId)
    returns (enroll: seq<(UserId, ListId)>, failed: seq<string>)
    ensures enroll == EnrollPairsOf(phones, members, listId)
    ensures failed == FailedOf(phones, members)
  {
    enroll, failed := [], [];
    for i := 0 to |phones|
      invariant enroll == EnrollPairsOf(phones[..i], members, listId)
      invariant failed == FailedOf(phones[..i], members)
    {
      FilterMapPrefixStep(phones, i, EnrollEntry(members, listId));
      FilterMapPrefixStep(phones, i, FailedEntry(members));
      var phone := phones[i];
      if phone in members {
        enroll := enroll + [(members[phone].userId, listId)];
      } else {
        failed := failed + [phone];
      }
    }
    assert phones[..|phones|] == phones;
  }

  /** The second planning loop: a log for each enrolled user with none for the fund's due date in `logs`. */
  method PlanLogs(enroll: seq<(UserId, ListId)>, listId: ListId, amount: Amount, dueDate: Option<Date>, logs: seq<PaymentLog>)
    returns (create: seq<NewLog>)
    ensures create == PlannedLogsOf(enroll, logs, listId, amount, dueDate)
  {
    create := [];
    for j := 0 to |enroll|
      invariant create == PlannedLogsOf(enroll[..j], logs, listId, amount, dueDate)
    {
      FilterMapPrefixStep(enroll, j, PlanEntry(logs, listId, amount, dueDate));
      var userId := enroll[j].0;
      if !PaymentLogExists(logs, userId, listId, dueDate) {
        create := create + [NewLog(userId, listId, amount, dueDate, Unpaid)];
      }
    }
    assert enroll[..|enroll|] == enroll;
  }

  /**
   * Every listed number lands in exactly one of the two lists, and the failed list holds exactly
   * the listed numbers that belong to no Member account.
   */
  lemma PlanPartition(phones: seq<string>, members: map<string, MemberInfo>, listId: ListId, phone: string)
    ensures |EnrollPairsOf(phones, members, listId)| + |FailedOf(phones, members)| == |phones|
    ensures phone in FailedOf(phones, members) <==> phone in phones && phone !in members
  {
    FilterMapPartition(phones, EnrollEntry(members, listId), FailedEntry(members));
    if phone in FailedOf(phones, members) {
      FilterMapOrigin(phones, FailedEntry(members), phone);
    }
    if phone in phones && phone !in members {
      var k :| 0 <= k < |phones| && phones[k] == phone;
      FilterMapKeeps(phones, FailedEntry(members), k);
    }
  }

  /** Every enrolled pair names the chosen fund and the account of a listed Member number. */
  lemma EnrolledAreMembers(phones: seq<string>, members: map<string, MemberInfo>, listId: ListId, pair: (UserId, ListId))
    requires pair in EnrollPairsOf(phones, members, listId)
    ensures pair.1 == listId
    ensures exists phone :: phone in phones && phone in members && members[phone].userId == pair.0
  {
    FilterMapOrigin(phones, EnrollEntry(members, listId), pair);
  }

  /**
   * Every planned log is an 'Unpaid' log of the chosen fund with the fund's amount and due date,
   * for an enrolled user that had no log for that date in the store.
   */
  lemma PlannedLogShape(enroll: seq<(UserId, ListId)>, logs: seq<PaymentLog>, listId: ListId, amount: Amount,
                        dueDate: Option<Date>, n: NewLog)
    requires n in PlannedLogsOf(enroll, logs, listId, amount, dueDate)
    ensures n == NewLog(n.userId, listId, amount, dueDate, Unpaid)
    ensures !PaymentLogExists(logs, n.userId, listId, dueDate)
    ensures exists k :: 0 <= k < |enroll| && enroll[k].0 == n.userId
  {
    FilterMapOrigin(enroll, PlanEntry(logs, listId, amount, dueDate), n);
  }

  /** Conversely, an enrolled user without a log for the due date gets one planned. */
  lemma PlannedWhereAbsent(enroll: seq<(UserId, ListId)>, logs: seq<PaymentLog>, listId: ListId, amount: Amount,
                           dueDate: Option<Date>, k: nat)
    requires k < |enroll| && !PaymentLogExists(logs, enroll[k].0, listId, dueDate)
    ensures NewLog(enroll[k].0, listId, amount, dueDate, Unpaid) in PlannedLogsOf(enroll, logs, listId, amount, dueDate)
  {
    FilterMapKeeps(enroll, PlanEntry(logs, listId, amount, dueDate), k);
  }

  /**
   * The look-up is against the store only: a number listed twice plans two identical logs for the
   * same member, fund and due date, and nothing in the schema refuses the second.
   */
  lemma RepeatedPhonePlannedTwice(phone: string, members: map<string, MemberInfo>, logs: seq<PaymentLog>,
                                  listId: ListId, amount: Amount, dueDate: Option<Date>)
    requires phone in members && !PaymentLogExists(logs, members[phone].userId, listId, dueDate)
    ensures var n := NewLog(members[phone].userId, listId, amount, dueDate, Unpaid);
            PlannedLogsOf(EnrollPairsOf([phone, phone], members, listId), logs, listId, amount, dueDate) == [n, n]
  {
    var pair := (members[phone].userId, listId);
    FilterMapPrefixStep([phone, phone], 1, EnrollEntry(members, listId));
    FilterMapSingle(phone, EnrollEntry(members, listId));
    assert [phone, phone][..1] == [phone] && [phone, phone][..2] == [phone, phone];
    FilterMapPrefixStep([pair, pair], 1, PlanEntry(logs, listId, amount, dueDate));
    FilterMapSingle(pair, PlanEntry(logs, listId, amount, dueDate));
    assert [pair, pair][..1] == [pair] && [pair, pair][..2] == [pair, pair];
  }

  /**
   * A fund whose DueDate is NULL matches no existing log, so every enrolled user gets a log
   * planned without a due date, and the insert refuses the whole enrollment with the NOT NULL error.
   */
  lemma MissingDueDateFailsEnrollment(enroll: seq<(UserId, ListId)>, logs: seq<PaymentLog>, listId: ListId, amount: Amount)
    requires enroll != []
    ensures var create := PlannedLogsOf(enroll, logs, listId, amount, None);
            !Insertable(create) && InsertError(First(create, Unstorable()).value) == "NOT NULL constraint failed: Payment_Logs.DueDate"
  {
    var create := PlannedLogsOf(enroll, logs, listId, amount, None);
    PlannedWhereAbsent(enroll, logs, listId, amount, None, 0);
    var n := First(create, Unstorable()).value;
    PlannedLogShape(enroll, logs, listId, amount, None, n);
  }

  /** The `Username (phone)` label of a listed number that was enrolled. */
  function EnrolledLabel(members: map<string, MemberInfo>): string -> Option<string> {
    (phone: string) => if phone in members then Some(members[phone].username + " (" + phone + ")") else None
  }

  /**
   * `successful_enrollments`: the labels of the listed numbers not in `failed_enrollments`,
   * which by `PlanPartition` are exactly the listed Member numbers.
   */
  function SucceededOf(phones: seq<string>, members: map<string, MemberInfo>): seq<string> {
    FilterMap(phones, EnrolledLabel(members))
  }

  /** The success and failure messages together account for every listed number once. */
  lemma ReportCountsEveryPhone(phones: seq<string>, members: map<string, MemberInfo>)
    ensures |SucceededOf(phones, members)| + |FailedOf(phones, members)| == |phones|
  {
    FilterMapPartition(phones, EnrolledLabel(members), FailedEntry(members));
  }

  /**
   * The "Enroll Members" button: with an empty text box nothing happens; otherwise the numbers
   * are parsed, the plan is made against the fund's amount and due date and the current logs,
   * and `enroll_members` writes memberships and planned logs together or not at all. The lists of
   * enrolled and unknown numbers are shown only after a successful write; a failure shows the
   * error alone, so both lists come back empty.
   */
  method BulkEnroll(ledger: Ledger, input: string, listId: ListId, fault: Option<string>)
    returns (r: Option<Outcome>, succeeded: seq<string>, failed: seq<string>)
    requires ledger.Valid() && FindFund(ledger.funds, listId).Some?
    modifies ledger`memberships, ledger`logs, ledger`nextLogId
    ensures ledger.Valid()
    ensures input == [] ==> r.None? && succeeded == [] && failed == []
                            && ledger.memberships == old(ledger.memberships) && ledger.logs == old(ledger.logs)
                            && ledger.nextLogId == old(ledger.nextLogId)
    ensures input != [] ==>
              var fund := FindFund(ledger.funds, listId).value;
              var phones := ParsePhones(input);
              var members := MemberUsers(ledger.users);
              var enroll := EnrollPairsOf(phones, members, listId);
              var create := PlannedLogsOf(enroll, old(ledger.logs), listId, fund.amount, fund.dueDate);
              r.Some? && (r.value.success <==> fault.None? && Insertable(create))
              && (r.value.success ==> succeeded == SucceededOf(phones, members) && failed == FailedOf(phones, members))
              && (!r.value.success ==> succeeded == [] && failed == [])
              && (r.value.success ==> ledger.memberships == old(ledger.memberships) + Pairs(enroll)
                                      && ledger.logs == old(ledger.logs) + Inserted(create, old(ledger.nextLogId)))
              && (!r.value.success ==> ledger.memberships == old(ledger.memberships) && ledger.logs == old(ledger.logs))
  {
    if input == [] {
      return None, [], [];
    }
    var phones := ParsePhones(input);
    var fund := FindFund(ledger.funds, listId).value;
    var members := MemberUsers(ledger.users);
    var enroll, unknown := SortPhones(phones, members, listId);
    var create := PlanLogs(enroll, listId, fund.amount, fund.dueDate, ledger.logs);
    var outcome := ledger.EnrollMembers(enroll, create, fault);
    if outcome.success {
      succeeded, failed := SucceededOf(phones, members), unknown;
    } else {
      succeeded, failed := [], [];
    }
    r := Some(outcome);
  }
}
