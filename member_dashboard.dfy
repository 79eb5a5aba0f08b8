/**
 * The decision logic of the member dashboard (core/member_dashboard.py): the label shown for each
 * outstanding due, the label-to-log choice list, what the page does for the chosen due (nothing
 * while it awaits approval, otherwise a payment form), the UPI note and payee, and the gate a
 * typed transaction id must pass before the ledger's `submit_transaction_for_verification` runs.
 */
module MemberDashboard {
  import opened Wrappers
  import opened Seqs
  import opened Text
  import opened Money
  import opened Schema
  import opened BankStatement
  import opened Reconcile
  import opened Db
  import opened Queries

  // ---- Due labels and the choice list ----

  /** The marker `format_due_label` appends for a status; 'Paid' and 'Unpaid' get none. */
  function StatusSuffix(s: Status): string {
    match s
    case Rejected => " - \U{26A0}\U{FE0F} REJECTED"
    case PendingVerification => " - \U{23F3} PENDING"
    case Flagged => " - \U{1F6A9} FLAGGED"
    case _ => ""
  }

  /** `"{ListName} - ₹{Amount} (Due: {DueDate})"`, the amount printed as Python prints a float. */
  function LabelBase(row: DueRow): string {
    row.fund + " - \U{20B9}" + FormatAmount(row.amount) + " (Due: " + row.dueDate + ")"
  }

  /** `format_due_label`. */
  function DueLabel(row: DueRow): string {
    LabelBase(row) + StatusSuffix(row.status)
  }

  /** The three markers differ from each other and from no marker at all. */
  lemma SuffixNamesStatus(s: Status, t: Status)
    requires StatusSuffix(s) == StatusSuffix(t)
    ensures s == t || (StatusSuffix(s) == [] && (s == Paid || s == Unpaid) && (t == Paid || t == Unpaid))
  {
    if StatusSuffix(s) != [] {
      assert StatusSuffix(s)[3] == StatusSuffix(t)[3];
    }
  }

  /** Two dues whose label starts alike carry the same marker, so the label tells which of the three flagged states a due is in. */
  lemma LabelShowsStatus(a: DueRow, b: DueRow)
    requires LabelBase(a) == LabelBase(b) && DueLabel(a) == DueLabel(b)
    ensures a.status == b.status || ((a.status == Paid || a.status == Unpaid) && (b.status == Paid || b.status == Unpaid))
  {
    var base := LabelBase(a);
    assert StatusSuffix(a.status) == DueLabel(a)[|base|..];
    assert StatusSuffix(b.status) == DueLabel(b)[|base|..];
    SuffixNamesStatus(a.status, b.status);
  }

  /** `due_options`: label to Log_ID over the dues in order, a later due taking over a repeated label. */
  function DueOptions(dues: seq<DueRow>): map<string, LogId>
    decreases |dues|
  {
    if dues == [] then map[]
    else
      var last := dues[|dues| - 1];
      DueOptions(dues[..|dues| - 1])[DueLabel(last) := last.logId]
  }

  /** Every choice is the label of some due and leads to that due's log. */
  lemma {:induction false} DueOptionsFrom(dues: seq<DueRow>, choice: string)
    requires choice in DueOptions(dues)
    ensures exists k :: 0 <= k < |dues| && DueLabel(dues[k]) == choice && dues[k].logId == DueOptions(dues)[choice]
    decreases |dues|
  {
    var init := dues[..|dues| - 1];
    var last := dues[|dues| - 1];
    if choice != DueLabel(last) {
      DueOptionsFrom(init, choice);
      var k :| 0 <= k < |init| && DueLabel(init[k]) == choice && init[k].logId == DueOptions(init)[choice];
      assert dues[k] == init[k];
    }
  }

  /** Every due's label is a choice, leading to the last due with that label. */
  lemma {:induction false} DueOptionsLatest(dues: seq<DueRow>, k: nat)
    requires k < |dues|
    requires forall j :: k < j < |dues| ==> DueLabel(dues[j]) != DueLabel(dues[k])
    ensures DueLabel(dues[k]) in DueOptions(dues) && DueOptions(dues)[DueLabel(dues[k])] == dues[k].logId
    decreases |dues|
  {
    if k < |dues| - 1 {
      var init := dues[..|dues| - 1];
      assert init[k] == dues[k];
      DueOptionsLatest(init, k);
    }
  }

  /**
   * Two dues of the same fund, amount, due date and status (as a doubled enrollment creates)
   * share one label, and only the later one can be chosen.
   */
  lemma TwinDuesOneChoice(a: DueRow, b: DueRow)
    requires a.fund == b.fund && a.amount == b.amount && a.dueDate == b.dueDate && a.status == b.status
    ensures DueOptions([a, b]) == map[DueLabel(a) := b.logId]
  {
    assert [a, b][..1] == [a];
    assert [a][..0] == [];
    assert DueLabel(a) == DueLabel(b);
    assert DueOptions([a]) == map[DueLabel(a) := a.logId];
  }

  // ---- The chosen due ----

  function OfLog(logId: LogId): DueRow -> bool {
    (row: DueRow) => row.logId == logId
  }

  /** `dues_df[dues_df['Log_ID'] == selected_log_id].iloc[0]` for the chosen label. */
  function Selected(dues: seq<DueRow>, choice: string): Option<DueRow> {
    var options := DueOptions(dues);
    if choice in options then First(dues, OfLog(options[choice])) else None
  }

  /** A label from the choice list always finds its due. */
  lemma SelectedFound(dues: seq<DueRow>, choice: string)
    requires choice in DueOptions(dues)
    ensures Selected(dues, choice).Some? && Selected(dues, choice).value.logId == DueOptions(dues)[choice]
  {
    DueOptionsFrom(dues, choice);
  }

  /** What the transaction-id form decides: nothing typed, a malformed id, a replayed id, or a submission. */
  datatype Gate = NoInput | Malformed | AlreadyVerified | Submit(txnId: string)

  /** An id the form accepts: ASCII digits only, exactly twelve of them. */
  predicate WellFormedId(id: string) {
    IsDigits(id) && |id| == 12
  }

  /** The checks on the typed id, in the page's order: present, well formed, not yet verified. */
  function CheckTransactionId(typed: string, verified: map<string, Timestamp>): Gate {
    var id := Trim(typed);
    if typed == [] then NoInput
    else if !WellFormedId(id) then Malformed
    else if IsTransactionIdVerified(verified, id) then AlreadyVerified
    else Submit(id)
  }

  /** The form submits exactly the trimmed text, and only when it is twelve digits that the registry does not hold. */
  lemma GateSubmitsIff(typed: string, verified: map<string, Timestamp>, id: string)
    ensures CheckTransactionId(typed, verified) == Submit(id)
            <==> typed != [] && id == Trim(typed) && WellFormedId(id) && id !in verified
  {
  }

  /** What the page does for the chosen due. */
  datatype Action = NoSelection | AwaitingApproval | Refused(gate: Gate) | SubmitFor(logId: LogId, txnId: string)

  function PaymentAction(dues: seq<DueRow>, choice: string, typed: string, verified: map<string, Timestamp>): Action {
    match Selected(dues, choice)
    case None => NoSelection
    case Some(due) =>
      if due.status == PendingVerification then AwaitingApproval
      else
        match CheckTransactionId(typed, verified)
        case Submit(id) => SubmitFor(due.logId, id)
        case g => Refused(g)
  }

  /**
   * A submission happens only for the chosen due's log, only when that due is not awaiting
   * approval, and only with an id that passed the gate.
   */
  lemma SubmitOnlyThroughGate(dues: seq<DueRow>, choice: string, typed: string, verified: map<string, Timestamp>, logId: LogId, id: string)
    ensures PaymentAction(dues, choice, typed, verified) == SubmitFor(logId, id)
            <==> Selected(dues, choice).Some? && Selected(dues, choice).value.logId == logId
                 && Selected(dues, choice).value.status != PendingVerification
                 && CheckTransactionId(typed, verified) == Submit(id)
  {
  }

  /**
   * Once a due's log has been submitted, choosing it again shows only the awaiting-approval
   * notice: every due row of that log is now 'Pending Verification'.
   */
  lemma SubmittedDueAwaitsApproval(logs: seq<PaymentLog>, funds: seq<Fund>, userId: UserId, logId: LogId, txnId: string,
                                   choice: string, typed: string, verified: map<string, Timestamp>)
    requires var dues := MemberDues(UpdateLog(logs, logId, MarkPending(txnId)), funds, userId);
             choice in DueOptions(dues) && DueOptions(dues)[choice] == logId
    ensures PaymentAction(MemberDues(UpdateLog(logs, logId, MarkPending(txnId)), funds, userId), choice, typed, verified) == AwaitingApproval
  {
    var after := UpdateLog(logs, logId, MarkPending(txnId));
    var dues := MemberDues(after, funds, userId);
    SelectedFound(dues, choice);
    var due := Selected(dues, choice).value;
    DuesAreTheMembers(after, funds, userId, due);
  }

  /** An id a reconciliation pass approved is refused as already verified from then on. */
  lemma ApprovedIdRefused(t: Tables, pending: seq<PendingRow>, batch: seq<CleanRow>, today: Date, now: Timestamp, typed: string)
    requires typed != [] && WellFormedId(Trim(typed)) && Trim(typed) in ApprovedIds(pending, batch)
    ensures CheckTransactionId(typed, Run(t, pending, batch, today, now).registry) == AlreadyVerified
  {
    VerifiedAfterPass(t, pending, batch, today, now, Trim(typed));
  }

  /** After `clear_verified_transactions` every well-formed id passes the gate again. */
  lemma ClearedRegistryAccepts(typed: string)
    requires typed != [] && WellFormedId(Trim(typed))
    ensures CheckTransactionId(typed, map[]) == Submit(Trim(typed))
  {
  }

  // ---- The payment form ----

  /** `db.get_fund_vpa(list_name) or SOCIETY_VPA`: a missing or empty fund VPA falls back to the society's. */
  function Payee(fundVpa: Option<string>, societyVpa: string): string {
    if fundVpa.Some? && fundVpa.value != "" then fundVpa.value else societyVpa
  }

  /** Payments for a fund created with a non-empty VPA go to that VPA; one created without goes to the society. */
  lemma PayeeOfCreatedFund(funds: seq<Fund>, f: Fund, societyVpa: string)
    requires !Any(funds, Named(f.name))
    ensures Payee(FundVpa(funds + [f], f.name), societyVpa) == if f.vpa.Some? && f.vpa.value != "" then f.vpa.value else societyVpa
  {
    FundVpaOfCreated(funds, f);
  }

  /** The UPI note `M{user_id}L{log_id}`. */
  function PaymentNote(userId: UserId, logId: LogId): string {
    "M" + IntToString(userId) + "L" + IntToString(logId)
  }

  /** Reads member and log back from a note. */
  function ParseNote(note: string): Option<(nat, nat)> {
    if |note| < 2 || note[0] != 'M' then None
    else
      var rest := note[1..];
      var i := IndexOf(rest, 'L');
      if i == |rest| || !IsDigits(rest[..i]) || !IsDigits(rest[i + 1..]) then None
      else Some((ParseNat(rest[..i]), ParseNat(rest[i + 1..])))
  }

  /** A note built from two digit strings splits back into them. */
  lemma NoteParts(u: string, l: string)
    requires IsDigits(u) && IsDigits(l)
    ensures ParseNote("M" + u + "L" + l) == Some((ParseNat(u), ParseNat(l)))
  {
    var rest := u + "L" + l;
    assert ("M" + u + "L" + l)[1..] == rest;
    assert 'L' !in u by {
      assert forall k :: 0 <= k < |u| ==> IsDigit(u[k]);
    }
    IndexOfAfter(u, 'L', l);
    assert rest[..|u|] == u;
    assert rest[|u| + 1..] == l;
  }

  /** The note names the member and the log it was made for, so two notes differ when either differs. */
  lemma PaymentNoteRoundTrip(userId: nat, logId: nat)
    ensures ParseNote(PaymentNote(userId, logId)) == Some((userId, logId))
  {
    NoteParts(NatToString(userId), NatToString(logId));
    ParseNatToString(userId);
    ParseNatToString(logId);
  }
}
