# Society welfare payment ledger, in Dafny

This project models the payment ledger of the society-welfare app, covering three pieces.

1. The ledger store (`core/db.py`). Its tables are funds, memberships, payment logs, the queue of unverified transaction claims, the `Verified_Transactions` anti-replay registry and the settings. The store's writers become methods of the `Db.Ledger` class.
2. The reconciliation pass `verify_transactions`, which has two parts:
   - it cleans an uploaded bank statement (`BankStatement`);
   - it settles every queued claim against the statement (`Reconcile`).
3. The decision logic of the two dashboards that drive the store:
   - the admin's outstanding-dues filters and bulk enrollment (`AdminDashboard`);
   - the member's due labels, payment note, payee and transaction-id gate (`MemberDashboard`).

These structural choices shape the model:

- **Values.** Amounts are integers in paise, and the Python `float` text of an amount (`450.0`, `450.5`) is `Money.FormatAmount`.
- **Tables and reads.** Tables are sequences in rowid order; read queries are functions over them (`Queries`), and a query without `ORDER BY` returns its rows in rowid order.
- **Transactions.** A `with conn:` block or a commit-or-rollback is modelled as: apply the writes, and on a failure put back the tables saved at the start.
- **Outside inputs.** These are parameters, not modelled code:
  - storage failures that the code catches (`fault`), except in `set_setting` and `create_fund` (see "Left out");
  - the clock (`today`, `now`);
  - `pd.to_numeric` (`toNumeric`);
  - the society's default VPA.

Modules:

- `Wrappers`, `Seqs`, `Text`: Option, order-preserving filters, and the Python string methods used (`strip`, `split`, `replace`, `isdigit` on ASCII).
- `Money`: amount text and its parser.
- `Schema`: rows, statuses and the Status CHECK.
- `BankStatement`: cleaning the uploaded statement.
- `Reconcile`: deciding and settling claims, as pure functions over the three tables the pass writes.
- `Db`: the `Ledger` class.
- `Queries`: the store's read queries.
- `AdminDashboard`, `MemberDashboard`: the two callers.

## Model

| member | source | states |
|---|---|---|
| `Db.Ledger.constructor` | core/db.py:128-135 | Setup over a database whose only rows are users: every other table starts empty, and the `Users` table becomes `Db.SeedUsers`. That adds the default admin only when no user is named "admin" and no user already holds the admin's UNIQUE phone. |
| `Db.SeedKeepsPhonesUnique` | core/db.py:128-135 | Setup never gives two users one phone. An account named "admin" exists afterwards exactly when setup raised no IntegrityError (`Db.SetupError`). Setup only appends, and adds at most one user. |
| `Db.Ledger.SetSetting` | core/db.py:150-155 | INSERT OR REPLACE: the key maps to the new value and every other key is unchanged. |
| `Queries.SettingRoundTrip` | core/db.py:142-155 | `get_setting` after `set_setting` returns the value just set and leaves every other key's answer as it was. |
| `Db.Ledger.CreateFund` | core/db.py:179-191 | Succeeds exactly when no fund has that name (the UNIQUE ListName). On success one fund row is appended under the next id; on failure nothing changes. |
| `Db.Ledger.EnrollMembers` | core/db.py:209-224 | Succeeds exactly when there is no storage fault and every planned log has a due date and a CHECK-allowed status. On success the memberships gain the pairs (INSERT OR IGNORE) and the logs are appended with fresh ids. On failure neither table changes, and the error names the first refused log's constraint. |
| `Queries.InsertedLogsExist` | core/db.py:459-466 | Every log `enroll_members` inserts is found by `payment_log_exists` afterwards. |
| `Db.Ledger.RemoveMemberFromFund` | core/db.py:234-247 | On success the (user, fund) membership is gone and the logs are the old ones minus that pair's `Unpaid` logs, in order. On failure both tables are unchanged. |
| `Db.RemovalKeepsHistory` | core/db.py:239-240 | A log survives the removal exactly when it is not an `Unpaid` log of that member in that fund. Paid, pending and rejected history is kept. |
| `Db.RemovalIdempotent` | core/db.py:240 | Removing the same member from the same fund a second time deletes no further log. |
| `Db.Ledger.DeleteFund` | core/db.py:249-264 | On success the fund's logs, memberships and fund row are deleted and everything else is kept in order. On failure all three tables are unchanged. |
| `Db.DeleteFundExact` | core/db.py:255 | A log survives `delete_fund` exactly when it belongs to another fund. |
| `Db.DeleteUnusedFundKeepsLogs` | core/db.py:255 | Deleting a fund that no log belongs to leaves the log table identical. |
| `Db.Ledger.ClearVerifiedTransactions` | core/db.py:477-489 | On success the registry is empty; on failure it is unchanged. |
| `Queries.VerifiedAfterPass` | core/db.py:468-475 | After a reconciliation pass, `is_transaction_id_verified` holds for an id exactly when it held before or the pass approved a claim under that id. An id verified before keeps its timestamp. |
| `Db.Ledger.SubmitTransactionForVerification` | core/db.py:418-434 | Both writes or neither: on success the log with that id becomes `Pending Verification` with the id recorded, and exactly one claim is queued after the old ones; on failure logs and claims are unchanged. |
| `Queries.SubmittedClaimListed` | core/db.py:308-321 | After a submission whose log, member and fund exist, `get_unverified_transactions` lists a row for the new claim, carrying the submitted id, the member, the fund and the log's Amount. In rowid order that row comes last. |
| `Db.Ledger.Settle` | core/db.py:364-387 | Once one claim is decided, the three tables become `Reconcile.Apply` of the old ones: on approval the log is `Paid` with today's date and the id is registered if absent; on rejection only the status becomes `Rejected`; either way the claim row is deleted. |
| `Db.Ledger.SettleFirst` | core/db.py:344-387 | The loop over the first `count` claims leaves the tables at `Reconcile.Run` of that prefix, and the two result lists at `ApprovedRows` and `RejectedRows` of it. |
| `Db.Ledger.MatchClaims` | core/db.py:343-391 | With no fault, the report is `(True, approved, rejected, None)` and the tables are `Run(old, pending)`. With a fault at any row or at the commit, the report is `(False, [], [], message)` and logs, claims and registry are exactly as before. |
| `Db.Ledger.VerifyTransactions` | core/db.py:323-393 | `MatchClaims` applied to the cleaned statement. It also keeps every stored status CHECK-allowed and every row id below its counter. |
| `Db.ApplyKeepsStorable` | core/db.py:364-387 | Settling one claim stores only `Paid` or `Rejected`, changes no log id, and only deletes claims. |
| `Db.RunKeepsStorable` | core/db.py:343-387 | A whole pass keeps the stored state inside the schema's constraints. |
| `BankStatement.NormaliseNumericId` | core/db.py:333-335 | A statement id made of whitespace, quotes, digits, an optional `.digits` export suffix, then quotes and whitespace, normalises to the bare digits. |
| `BankStatement.TidyPadded` | core/db.py:333 | Whitespace then quote characters are stripped from both ends, and an inner value that neither starts nor ends with one is left intact. |
| `BankStatement.NormaliseBareId` | core/db.py:335 | An all-digit id, with or without a `.digits` suffix, is cut at the first dot. |
| `BankStatement.NormaliseIdShape` | core/db.py:333-335 | Normalising either leaves the stripped id unchanged or yields a dot-free, all-digit prefix of it. Any character other than a digit or a dot leaves it unchanged. |
| `BankStatement.UnreadableRowIgnored` | core/db.py:338-339 | A statement row whose amount does not parse is dropped: the cleaned statement is the same as without it. |
| `BankStatement.LookupMisses` | core/db.py:341-352 | An id is absent from the cleaned statement exactly when no row with a readable amount carries it. |
| `BankStatement.LookupFindsFirstUsable` | core/db.py:354-355 | The amount matched for an id is the amount of the first readable row carrying it. |
| `Reconcile.DecideNotFound` | core/db.py:352-362 | A claim is rejected with "Transaction ID not found in statement" exactly when no readable statement row carries its trimmed id. |
| `Reconcile.DecideByFirstUsable` | core/db.py:346-360 | When the first readable row for the trimmed id is found, the claim is approved exactly when that row's amount equals the log's Amount. Otherwise it is rejected with "Amount Mismatch (Bank: X, Submitted: Y)". |
| `Reconcile.ResultsPartition` | core/db.py:364-384 | Every claim lands in exactly one of the two result lists, approved exactly when its decision is Approve. The list lengths add up to the number of claims. |
| `Reconcile.RowEntries` | core/db.py:370-384 | An approved claim contributes one approved entry (trimmed id, member, fund, amount) and no rejected entry; a rejected claim the reverse, carrying its reason. |
| `Reconcile.ClaimsAfter` | core/db.py:387 | After the pass the claim queue is the old queue minus exactly the claims the pass settled, in order. |
| `Reconcile.RegistryKeysAfter` | core/db.py:369 | The registry's ids after the pass are the old ids plus every approved id. |
| `Reconcile.RegistryKeepsOld` | core/db.py:369 | INSERT OR IGNORE: an id registered before keeps its timestamp. |
| `Reconcile.RegistryStampsNew` | core/db.py:369 | Every id the pass adds is stamped with the pass's time. |
| `Reconcile.RegistryAfter` | core/db.py:364-369 | The registry only grows, and only by approved ids stamped now, with old entries untouched. |
| `Reconcile.LogsAfter` | core/db.py:364-378 | Each log keeps its place and every column but two. Its status is set by the last claim naming it (`Paid` on approval, `Rejected` otherwise, unchanged if none), and its payment date becomes today exactly when a claim naming it is approved. |
| `Reconcile.ExampleApproved` | core/db.py:352-358 | A claim whose id is the only statement row, with an equal amount, is approved and listed once as approved. |
| `Reconcile.ExampleMismatch` | core/db.py:359-360 | The same with a different amount is rejected with the mismatch reason carrying both amounts. |
| `Reconcile.ExampleEmptyStatement` | core/db.py:361-362 | Against an empty statement every claim is rejected as not found. |
| `Reconcile.SameIdApprovedTwice` | core/db.py:344-369 | Two queued claims with one id and one matching statement row are both approved. The registry gains that id once. |
| `Reconcile.ExportSuffixOnlyOnBankSide` | core/db.py:335-346 | A claim typed as `digits.0` is not cut at the dot (only the statement side is). Against a statement row with the same `digits.0` id, which cleans to `digits`, it is rejected as not found. |
| `Reconcile.SuffixedIdKept` | core/db.py:335-346 | For an id `digits.digits`, the statement side cuts it to the strictly shorter `digits`, while the claim side keeps the whole text. |
| `Money.FormatAmountRoundTrip` | core/db.py:360 | The `float` text of an amount in a mismatch reason parses back to that amount. |
| `Money.FormatAmountInjective` | core/db.py:360 | Two different amounts never print alike, so the reason names the amounts unambiguously. |
| `Money.FormatWholeRupees` | core/member_dashboard.py:48 | A whole-rupee amount prints as its digits followed by `.0`. |
| `Queries.MemberUsersKeys` | core/db.py:200-207 | A phone is a key of `get_member_users` exactly when some Member-role user has it. |
| `Queries.MemberUsersLatest` | core/db.py:205 | When two members share a phone, the dict comprehension keeps the later row. |
| `Queries.FundVpaOfCreated` | core/db.py:409-416 | A fund just created is found by name with the VPA it was given. |
| `Queries.OverviewRowJoined` | core/db.py:159-170 | Every overview row is a stored log joined with its existing user and fund. |
| `Queries.OverviewListsLog` | core/db.py:159-170 | Every log whose user and fund exist appears in the overview. |
| `Queries.ListedClaimsCleared` | core/db.py:344-387 | After a pass over `get_unverified_transactions`, every claim left in the queue was one the query did not list. |
| `Queries.UnlistedClaimsKept` | core/db.py:344-387 | With distinct claim ids, every claim the query did not list stays queued. |
| `Queries.LogShown` | core/db.py:395-448 | A member's log, whose fund exists, is among `get_member_dues` exactly when not `Paid`, and in `get_payment_history` exactly when not `Unpaid`. |
| `Queries.DuesAreTheMembers` | core/db.py:395-407 | Every due row is one of that member's logs, in one of the four due statuses. |
| `AdminDashboard.OutstandingIsDue` | core/admin_dashboard.py:44 | The outstanding statuses are the due statuses minus `Flagged`. The two agree on every status the CHECK allows. |
| `AdminDashboard.FundOutstandingNarrows` | core/admin_dashboard.py:70 | The per-fund outstanding view is the outstanding view filtered to that fund, in order. |
| `AdminDashboard.ParsedPhoneClean` | core/admin_dashboard.py:108 | Every parsed phone number is non-empty, comma-free and already trimmed. |
| `AdminDashboard.ParsePhonesJoin` | core/admin_dashboard.py:108 | Joining clean numbers with commas and parsing gives them back, in order. |
| `AdminDashboard.SortPhones` | core/admin_dashboard.py:117-123 | The loop builds exactly `EnrollPairsOf` (member phones, as (user, fund) pairs) and `FailedOf` (the others), in input order. |
| `AdminDashboard.PlanPartition` | core/admin_dashboard.py:119-123 | Every phone goes to exactly one list, and a phone fails exactly when it is not a member's. |
| `AdminDashboard.EnrolledAreMembers` | core/admin_dashboard.py:120-121 | Every enrolled pair is (a member's user id, the chosen fund). |
| `AdminDashboard.PlanLogs` | core/admin_dashboard.py:125-129 | The loop builds exactly `PlannedLogsOf`: one `Unpaid` log per enrolled user with no stored log for (user, fund, due date). |
| `AdminDashboard.PlannedLogShape` | core/admin_dashboard.py:111-129 | Every planned log carries the fund's Amount and DueDate and status `Unpaid`, is for an enrolled user, and has no stored twin. |
| `AdminDashboard.PlannedWhereAbsent` | core/admin_dashboard.py:127-129 | Every enrolled user without a stored log for the triple gets a planned log. |
| `AdminDashboard.RepeatedPhonePlannedTwice` | core/admin_dashboard.py:119-129 | A phone listed twice plans two identical logs, because the check is against the store only. |
| `AdminDashboard.MissingDueDateFailsEnrollment` | core/admin_dashboard.py:113-131 | With a NULL fund due date, enrolling anyone fails with the NOT NULL error on Payment_Logs.DueDate. |
| `AdminDashboard.ReportCountsEveryPhone` | core/admin_dashboard.py:134-138 | The success and failure messages together list every parsed phone. |
| `AdminDashboard.BulkEnroll` | core/admin_dashboard.py:106-141 | An empty input does nothing. Otherwise memberships and planned logs are written together or not at all; success means no fault and a storable plan; the member and non-member phone lists are reported only on success, and both are empty after a failure. |
| `MemberDashboard.SuffixNamesStatus` | core/member_dashboard.py:49-54 | The three status markers differ from each other; only `Paid` and `Unpaid` get none. |
| `MemberDashboard.LabelShowsStatus` | core/member_dashboard.py:47-55 | Two dues with the same text before the marker and the same label have the same status, up to `Paid`/`Unpaid`. |
| `MemberDashboard.DueOptionsFrom` | core/member_dashboard.py:57 | Every label offered comes from a due row and maps to that row's log id. |
| `MemberDashboard.DueOptionsLatest` | core/member_dashboard.py:57 | A due whose label no later due repeats is offered under its label, with its own log id. |
| `MemberDashboard.TwinDuesOneChoice` | core/member_dashboard.py:57 | Two dues alike but for the log id get one label, which picks the later log. |
| `MemberDashboard.SelectedFound` | core/member_dashboard.py:61-62 | A chosen label finds the due row of the log it maps to. |
| `MemberDashboard.GateSubmitsIff` | core/member_dashboard.py:95-102 | The form submits exactly when the trimmed input is twelve ASCII digits that are not in the registry, and it submits that trimmed id. |
| `MemberDashboard.SubmitOnlyThroughGate` | core/member_dashboard.py:60-102 | A submission happens exactly for the chosen due's log, when that due is not pending verification, and with an id that passed the gate. |
| `MemberDashboard.SubmittedDueAwaitsApproval` | core/member_dashboard.py:64-65 | Once a log is submitted, choosing its due shows only the awaiting-approval notice, so it cannot be submitted again. |
| `MemberDashboard.ApprovedIdRefused` | core/member_dashboard.py:99-100 | A well-formed id that a reconciliation pass approved is refused as already verified. |
| `MemberDashboard.ClearedRegistryAccepts` | core/member_dashboard.py:99-102 | After the registry is cleared, any well-formed id is accepted again. |
| `MemberDashboard.PayeeOfCreatedFund` | core/member_dashboard.py:69 | Payment goes to the fund's VPA when it was created with a non-empty one, otherwise to the society VPA. |
| `MemberDashboard.PaymentNoteRoundTrip` | core/member_dashboard.py:80 | The note `M{user}L{log}` reads back as exactly that user id and log id. |

## Behaviour that follows the code

Where a plain reading of the app's purpose suggests otherwise, the model does what the code does:

- **Reason strings.** They are the code's exact strings: "Amount Mismatch (Bank: X, Submitted: Y)", with Python's `float` text for X and Y, and "Transaction ID not found in statement".
- **Normalisation is one-sided.** Only the statement side loses quotes and a `.0`-style suffix; the claim id is only whitespace-trimmed (`Reconcile.ExportSuffixOnlyOnBankSide`).
- **No registry check during reconciliation.** Two queued claims with the same id are both approved (`Reconcile.SameIdApprovedTwice`). Replay is stopped only by the member-side gate.
- **`Flagged` is never stored but is queried.** The Status CHECK does not allow `Flagged`, so no stored log has it (`Db.Ledger.Valid`), yet the member's dues query selects it. The admin's outstanding filter does not select it (`AdminDashboard.OutstandingIsDue`).
- **No uniqueness of (member, fund, due date).** The schema has no such constraint, and the planner checks only the store, so a repeated phone plans two logs for one triple (`AdminDashboard.RepeatedPhonePlannedTwice`). Such twins then share one dashboard label (`MemberDashboard.TwinDuesOneChoice`).
- **A NULL fund due date makes bulk enrollment fail.** `payment_log_exists` finds nothing for it, and the insert violates NOT NULL (`AdminDashboard.MissingDueDateFailsEnrollment`).
- **`delete_fund` leaves claims behind.** Queued claims for the deleted logs stay in the queue; `get_unverified_transactions` no longer lists them.

## Left out

- Recurring-dues generation (`core.dues_logic`) is not part of this model. Its source is not available, and the store helpers it would call (`get_recurring_funds`, `get_memberships`, `get_latest_payment_log`, `create_payment_log`) are left out with it.
- Notifications (SMTP, WhatsApp links, `Notification_Log`, `log_notification`, `get_reminders_preview`, `get_reminders_to_send`) are I/O.
- QR image generation and the UPI URI string are a foreign library and presentation; only the note and the payee are modelled.
- CSV parsing by pandas is a foreign library. The statement arrives as (id text, amount text) rows, and `pd.to_numeric` is the parameter `toNumeric`.
- Collection rate, totals and monthly trends are float arithmetic and pandas grouping.
- Amounts are integers in paise rather than SQLite `REAL`, so float rounding in the `==` comparison is not modelled.
- `ORDER BY DueDate` in `get_member_dues` and `get_payment_history` is left out. The model returns rows in rowid order, and most lemmas about these queries state membership rather than position.
- `MemberDashboard.DueOptionsLatest` and `MemberDashboard.TwinDuesOneChoice` assume that dues with equal `DueDate` arrive in rowid order. These two lemmas say the later row wins the label, but SQLite leaves the order of such ties unspecified. Two dues sharing a label share a due date, so in the source either log may win.
- `get_members_in_fund`, `get_fund_options`, `get_all_funds`, `get_fund_details` and `get_verified_transactions` are plain projections with no logic.
- SQLite mechanics are left out: connections, WAL mode and the schema-migration `ALTER TABLE` attempts. Exact driver error texts are also left out, except the two messages of the log insert. Those follow current SQLite: the NOT NULL message names the column, and the CHECK message quotes the unnamed constraint's expression.
- The Users table's writes, password hashing and login (`core/auth.py`) are a foreign primitive and session code.
- `Membership_ID` is not kept, because nothing reads it; memberships are a set of (user, fund) pairs.
- The clock is the parameters `today` and `now`.
- `Reconcile.RegistryStampsNew`, `Reconcile.RegistryAfter`, `Reconcile.LogsAfter` and `Db.Ledger.Settle` read the clock once per reconciliation pass. The source reads `datetime.now().date()` and `CURRENT_TIMESTAMP` once per approved claim. So one pass's rows may get different seconds, or different dates across midnight. The model's claim that every id a pass adds carries the pass's time rests on merging those readings into one.
- `Db.Ledger.constructor`: when the admin's phone is already taken, `setup_database` raises the IntegrityError and the app stops. The model cannot raise from a constructor. It builds the ledger without the admin, which is the state the tables are left in, and `Db.SetupError` names the error.
- `Money.FormatAmount` matches Python's `str(float)` only for amounts below 10^15 paise. Beyond that, a double no longer holds every paisa.
- `Queries.SubmittedClaimListed` and `Queries.MemberUsersLatest` rely on rowid order for queries with no `ORDER BY`. Examples are the four-way join of `get_unverified_transactions` and the scan of `get_member_users`, whose row order SQLite does not promise. The first lemma's "the new claim comes last" and the second's "the later row wins the phone" hold only under that order. That the new claim is listed, with its id, member, fund and amount, does not depend on it.
- `Db.Ledger.SetSetting` and `Db.Ledger.CreateFund` take no `fault`. `set_setting` catches no error, and `create_fund` catches only the IntegrityError of a reused name. Any other storage error, such as a locked database, raises out of them with nothing committed. The model does not represent that raise; the tables it would leave are the unchanged ones.
- Storage failures are the parameter `fault`. Reconciliation's fault names the claim at which the store raises.
- `isdigit` is ASCII `0`-`9` only; Python also accepts other Unicode digits.
- `Queries.UnlistedClaimsKept` assumes distinct claim ids. This is the primary key's guarantee, stated as a precondition.
- `Db.Ledger.Settle` receives its claim's decision from the loop instead of computing it, because the decision is a pure function of the claim and the statement (`Reconcile.Decide`).
