# Expense approval workflow: a verified model

This project models the core of an expense-management web service:

- How an employee's expense claim is taken in.
- How it is held in a pending table until an admin redeems one of two single-use, emailed links.
- How the redemption moves the claim, in one transaction, into the approved table (`expenses`) or the `rejected_expenses` table, consuming the token.

The model also covers:

- the KPI filters and counts of the dashboard;
- the mapping from a status word to the table a user's expenses are listed from;
- the duplicate-email and admin-only checks of the user registry.

Files and modules:

- `wrappers.dfy` (`Wrappers`): `Option` and `Result`.
- `expense.dfy` (`Expense`):
  - the submission payload `ExpenseIn` and the stored row `ExpenseRecord`;
  - the mandatory-field check for the three delivery heads, with Python truthiness: `None`, `""` and `0.0` are false.
- `tokens.dfy` (`Tokens`):
  - the `approval_tokens` row;
  - its issue, with a 24-hour lifetime;
  - the lookup by token *and* action;
  - the read-only validation decision. It checks, in order: not found, already used, expired. Expiry is strict, `now > expires_at`.
- `store.dfy` (`Store`):
  - The database as a value: three expense tables keyed by id, the token ledger keyed by token string, and the four `SERIAL` sequences.
  - The two committed transitions, `Submit` and `Redeem`, as functions of the state before them.
  - A ghost *provenance* records, for every committed submission, where it lives now.
  - The invariant `Consistent` says that every submitted expense lives in exactly one row of exactly one table, with the fields it was submitted with. It also says that every submitted expense was issued one approve and one reject token and has at most one token per action, that a used token's expense has been decided in that token's direction, and that no two tokens share an id.
  - Lemmas prove that both transitions keep `Consistent`, and that tokens are single-use.
- `workflow.dfy` (`Workflow`): the class `ExpenseDb`, whose methods run the statements of main.py one by one.
  - `submit_expense` runs: pending INSERT, two token INSERTs, the mail call, then commit.
  - `approve_expense` and `reject_expense` run: validate, read, INSERT into the target, DELETE the pending row, UPDATE the token, then commit or roll back.
  - Each method ensures that the new state and result are exactly those of `Store.Submit` or `Store.Redeem`.
  - The `Valid()` invariant is `Store.Consistent` of the fields and the ghost provenance.
- `users.dfy` (`Users`): the class `UserTable`, holding the users table, with `register` and `create_user`.
- `numerals.dfy` (`Numerals`): `int()` on a decimal string, used for the admin's `user` filter, and its round trip with `str()`.
- `dashboard.dfy` (`Dashboard`):
  - the KPI conditions, built by successive appends as in `dashboard_kpis`;
  - the four `COUNT(*)` results;
  - the status-to-table mapping and the user's expense listing.

Environment inputs are parameters:

- The clock is `now`, in whole seconds on one UTC clock.
- The two `uuid4` strings are `approveToken` and `rejectToken`. The callers must supply strings that are distinct and not yet in the ledger.
- The mail call's outcome is `mailOk`.
- A database error raised by the INSERTs of a submission, or by the writes of a redemption, is `storeOk`.
- The session identity is a `Users.Caller`.

Failure behaviour of main.py that the model keeps:

- **Mail failure.** `submit_expense` calls `send_approval_email` before `conn.commit()`, with no handler (main.py:210-219). `send_approval_email` raises on a missing API key or a reply other than 200 or 202 (email_utils.py:8-9, 61-62). A failed mail call therefore loses the whole submission. `Store.Submit` models this: `MailFailed` leaves every table and the ledger unchanged.
- **Database error during a submission.** An exception from one of the three INSERTs (main.py:170-197) also escapes before `conn.commit()`. `Store.Submit` reports it as `InsertFailed`, with the same effect as `MailFailed`.
- **Missing pending row.** When the pending row is gone, `dict(zip(cols, None))` raises a `TypeError` (main.py:271), which rolls the redemption back. The model calls this outcome `RecordNotFound`: nothing changes.
- **Sequences on rollback.** `SERIAL` sequences are not rolled back in PostgreSQL. A submission refused by the mail call still consumes one pending id and two token ids, since all three INSERTs ran. A failed redemption write still consumes one id of the target table.

## Model

| member | source | states |
|---|---|---|
| Expense.HeadCheckFailsIff | main.py:160-165 | The head check fails exactly when the head is Porter, Urgent Delivery or Pickup & Delivery and one of from, to, weight, amount, awb is None, empty or zero. |
| Expense.UnrestrictedHeadPasses | main.py:160 | A head outside the three restricted ones passes, whatever fields are missing. |
| Expense.All | main.py:161 | Python's `all()`: true exactly when every element is true. |
| Tokens.Issue | main.py:227-236 | A new token row belongs to the given pending id and action, is unused, has no used_at and expires exactly 86400 s after issue. |
| Tokens.Lookup | main.py:242-248 | The query by (token, action) finds a row exactly when the token exists with that action, and then returns that row. |
| Tokens.Validate | main.py:248-258 | Each refusal happens exactly when its condition holds, in the order missing, used, expired. Success is exactly "present, unused and now <= expires_at", and yields (token id, pending id). |
| Tokens.FreshTokenWindow | main.py:229-256 | A fresh token validates up to and including exactly 24 h after issue, and is "Token expired" from then on. |
| Tokens.WrongEndpointIsInvalid | main.py:241-250 | A token presented at the other endpoint is "Invalid token", whatever its state. |
| Numerals.ParseInt | main.py:337 | int() succeeds exactly on an optional sign followed by one to 4300 ASCII digits, 4300 being CPython's default `sys.int_info.default_max_str_digits`; the sign decides the result's sign. |
| Numerals.ShowNatIsDigits | main.py:337 | The decimal form of a natural number is a non-empty digit string denoting that number. |
| Numerals.ParseShowInt | main.py:337 | int(str(i)) == i for every integer i of at most 4300 digits, beyond which str() raises too. |
| Numerals.ParseShowId | main.py:337 | int(str(i)) == i for every id a SERIAL column holds (0 <= i < 2^31). |
| Numerals.OverlongNumeralFails | main.py:337 | A numeral of 4301 digits, signed or not, makes int() fail. |
| Store.Submit | main.py:157-223 | "Missing mandatory fields" exactly when the head check fails, with no write at all. Any failure leaves tables and ledger unchanged. `InsertFailed` exactly when the check passes and an INSERT raises; `MailFailed` exactly when the INSERTs succeed and the mail call raises; after the head check, each failure still advances the pending and token sequences. Success exactly when the check passes, the INSERTs succeed and mail succeeds. A success adds one pending row with the input's fields and created_by, under a fresh id, plus exactly two new tokens for that id, one per action, each unused, with no used_at, expiring 24 h later. |
| Store.Redeem | main.py:261-316 | A token refusal returns that refusal and changes nothing. A valid token whose pending row is gone fails with nothing changed. Any failure leaves every table and token as before. Success exactly when the token is valid, the row is pending and the store does not fail. A success deletes the pending row, adds an identical row to the action's table only, and marks the redeemed token alone as used at now. |
| Store.EmptyIsConsistent | main.py:44-59 | The empty database is consistent. main.py creates only the users table there; the other four tables are created outside main.py, and the model starts them empty. |
| Store.SubmitTotal | main.py:170-223 | A submission adds one row to the three tables when it commits, and none otherwise. |
| Store.RedeemTotal | main.py:273-282 | A redemption never changes the number of rows in the three tables. |
| Store.AdmitKeepsSequences | main.py:170-234 | The commit of a submission keeps every id below its table's sequence. |
| Store.AdmitKeepsPartition | main.py:170-194 | The commit of a submission puts one new expense in one new pending row and keeps every other expense where it was. |
| Store.AdmitKeepsLedger | main.py:196-234 | The commit of a submission adds one unused token per action for the new expense, keeping the ledger sound. |
| Store.AdmitKeepsIssued | main.py:196-197 | The commit of a submission issues both an approve and a reject token for the new expense and keeps every older expense's tokens. |
| Store.AdmitKeepsConsistent | main.py:170-219 | The commit of a submission keeps the invariant. |
| Store.SubmitKeepsConsistent | main.py:157-223 | Every outcome of a submission keeps the invariant. |
| Store.SequencesOnlyKeepConsistent | main.py:285-287 | A rolled-back transaction, which only advances sequences, keeps the invariant. |
| Store.CommitKeepsPartition | main.py:273-283 | The commit of a redemption moves one expense from pending to one new row of the action's table and keeps every expense in exactly one row. |
| Store.CommitMovesToApproved | main.py:273-281 | An approval gives the new approved row its origin, and every other expense keeps its row. |
| Store.CommitMovesToRejected | main.py:302-310 | A rejection gives the new rejected row its origin, and every other expense keeps its row. |
| Store.CommitKeepsSequences | main.py:273-282 | The commit of a redemption keeps every id below its sequence and all token ids distinct. |
| Store.CommitKeepsIssued | main.py:282 | Marking a token used deletes no token, so every expense keeps both its tokens. |
| Store.UpdateByIdIsKeyed | main.py:282 | With distinct token ids, the UPDATE of the row whose id is the token's id changes exactly the row the token string names. |
| Store.CommitKeepsLedger | main.py:282 | The commit of a redemption marks only the redeemed token used, and its expense is then decided in that token's direction. |
| Store.RedeemKeepsConsistent | main.py:261-316 | Every outcome of a redemption keeps the invariant. |
| Store.ExactlyOneTable | main.py:273-282 | In a consistent database every submitted expense is in exactly one of pending, approved or rejected, in one row, with its submitted fields. |
| Store.AtMostOneRedemption | main.py:253-282 | In a consistent database at most one token of an expense is ever used, so an expense is approved or rejected once. |
| Store.SecondRedemptionFails | main.py:253-254 | After a successful redemption, the same token is refused with "Token already used" at any later time, and nothing changes. |
| Store.SiblingRedemptionFails | main.py:266-271 | After one token of an expense wins, its sibling stays unused. Redeeming the sibling fails with nothing changed, and when the sibling is otherwise valid it fails because the pending row is gone. |
| Store.PendingIsRedeemable | main.py:196-197 | In a consistent database every pending expense holds an unused approve token and an unused reject token. |
| Users.InsertKeepsEmailsUnique | main.py:70-75 | Adding a user whose email is not taken keeps emails unique. |
| Users.UserTable.constructor | main.py:46-56 | An empty users table, with unique emails. |
| Users.UserTable.Insert | main.py:74-75 | The row gets the next id and the table keeps unique emails. |
| Users.UserTable.Register | main.py:65-80 | Fails with "User exists" exactly when the email is taken, changing nothing. Otherwise it adds exactly one row: email, hash, no name, role "user". |
| Users.UserTable.CreateUser | main.py:134-155 | A non-admin caller always gets "Admins only". For an admin, failure with "User already exists" happens exactly when the email is taken. A failure changes nothing. A success adds exactly one row with the given name, email, hash and role. |
| Workflow.ExpenseDb.constructor | main.py:44-59 | Empty tables and ledger, sequences at 1, invariant holds. main.py creates only the users table there; pending_expenses, expenses, rejected_expenses and approval_tokens are created outside main.py, and the model starts them empty. |
| Workflow.ExpenseDb.CreateApprovalToken | main.py:227-236 | Adds exactly one ledger row under the fresh token: next token id, given pending id and action, unused, expiring in 24 h. Returns the token and leaves every table as it was. |
| Workflow.ExpenseDb.RunSubmission | main.py:157-223 | Its statement-by-statement run leaves exactly the state and result of Store.Submit. |
| Workflow.ExpenseDb.SubmitExpense | main.py:157-223 | As RunSubmission, and the invariant is preserved. |
| Workflow.ExpenseDb.ValidateToken | main.py:241-258 | Changes nothing. It equals Validate of the (token, action) lookup, and succeeds exactly when the token exists for that action, is unused and has not expired. |
| Workflow.ExpenseDb.RunRedemption | main.py:261-316 | Its statement-by-statement run, with rollback, leaves exactly the state and result of Store.Redeem. |
| Workflow.ExpenseDb.RedeemToken | main.py:261-316 | As RunRedemption, and the invariant is preserved. |
| Workflow.ExpenseDb.ApproveExpense | main.py:261-287 | The state of Store.Redeem at the approve endpoint; "approved" on success, otherwise its error; invariant preserved. |
| Workflow.ExpenseDb.RejectExpense | main.py:290-316 | The state of Store.Redeem at the reject endpoint; "rejected" on success, otherwise its error; invariant preserved. |
| Dashboard.BuildConditions | main.py:330-357 | A non-admin gets only created_by = own id, whatever the filters. For an admin, failure happens exactly when a supplied user filter is not an integer. Otherwise the admin gets one condition per supplied filter, each bound to its value, in the order main.py tests the filters. |
| Dashboard.AdminConditions | main.py:333-353 | The admin branch: one condition per filter that is neither None nor "", bound to its value, in order; the user filter bound to int(user), failing when int() would. |
| Dashboard.AddUserFilter | main.py:335-337 | The user step adds created_by = int(user) exactly when the filter is supplied and parses, and fails exactly when it is supplied and does not parse. |
| Dashboard.AddTextFilter | main.py:339-353 | A text-filter step appends column = value exactly when the filter is neither None nor "", and otherwise leaves the list as it was. |
| Dashboard.AppendKeepsBuilt | main.py:333-353 | Appending the bound condition of the next supplied filter extends the built prefix. |
| Dashboard.SkipKeepsBuilt | main.py:333-353 | Skipping an unsupplied filter extends the built prefix. |
| Dashboard.BuiltAll | main.py:333-353 | After the last filter, the conditions name exactly the supplied filters. |
| Dashboard.KpiCounts | main.py:371-404 | total_uploaded is pending + approved + rejected, and each count is at most the size of its table. |
| Dashboard.EncodedFiltersMean | main.py:333-361 | Conditions with one bound condition per supplied filter hold of a row exactly when the row passes every supplied filter. |
| Dashboard.EncodedCount | main.py:371-393 | Under such conditions, COUNT(*) is the number of rows passing every supplied filter. |
| Dashboard.DashboardKpis | main.py:318-404 | A non-admin's counts are over their own rows. For an admin, a non-integer user filter fails. Each count is the number of rows of its table passing every supplied filter, and total_uploaded is their sum. With no filters the counts are the table sizes and total_uploaded is all rows. |
| Dashboard.MatchingNothing | main.py:359-361 | With no conditions there is no WHERE clause and every row matches. |
| Dashboard.UnfilteredCounts | main.py:359-404 | Without conditions the counts are the table sizes and total_uploaded is the number of rows in all three tables. |
| Dashboard.CountRemove | main.py:281 | Deleting a row lowers a count by one exactly when that row matched. |
| Dashboard.CountInsert | main.py:273-279 | Inserting a row raises a count by one exactly when that row matches. |
| Dashboard.RedeemKeepsUploaded | main.py:281-400 | Under any filter, a redemption keeps total_uploaded. An approval leaves the rejected count alone, and a rejection the approved count. |
| Dashboard.SubmitUploaded | main.py:170-223 | A submission raises the pending count by one exactly when it commits and the new row matches the filters. Other counts do not change. |
| Dashboard.TableFor | main.py:414-421 | Fails exactly on a word other than "approved", "pending" and "rejected", and the failure is "Invalid status". |
| Dashboard.TableForIsInverse | main.py:414-421 | "approved", "pending" and "rejected" map one-to-one onto expenses, pending_expenses and rejected_expenses; any other word fails. |
| Dashboard.UserExpenses | main.py:407-428 | Fails exactly when the status is invalid. Otherwise it returns exactly the caller's own rows of that status's table, unchanged. |

## Left out

- Mail delivery (email_utils.py): the SendGrid POST, the HTML body and the admin recipient list are replaced by the outcome `mailOk`.
- Authentication (auth.py, `login`, `get_current_user`, `/me`): bcrypt, JWT and cookies are external. `Register` and `CreateUser` receive the password hash; the session user is a `Caller` parameter.
- Table creation, connection handling and SQL text: the tables are maps keyed by id. `create_table` is represented only by the empty database.
- The approval_tokens schema is not part of this model. Token strings are taken as unique, as uuid4 makes them: `Submit` and `CreateApprovalToken` require fresh tokens, and the ledger is keyed by token string. Token ids are distinct under `Store.SequencesAhead`, so the UPDATE by `token_id` hits the row found by token (`Store.UpdateByIdIsKeyed`); the model performs it under the token string.
- Randomness and clocks: uuid4 values are parameters. `datetime.utcnow()` and the database's `NOW()` are one clock, the parameter `now` in whole seconds.
- Store.Redeem: a database failure is modelled as one outcome, `storeOk`, taken after the three writes. A failure at an earlier statement has the same effect, since everything is rolled back. The one exception is whether the target table's sequence advanced, which the model always advances.
- Store.Redeem: the missing pending row is reported as `RecordNotFound`. In main.py it is an unhandled TypeError and hence a server error; HTTP status codes are not modelled.
- Store.Submit: a database error is modelled as one outcome, `storeOk`, taken after the three INSERTs. An error at an earlier INSERT has the same effect on tables and ledger. The difference is in the sequences: the model always advances both the pending and the token sequence as if all three INSERTs had run.
- Concurrency: concurrent redemptions of sibling tokens rely on database isolation. Requests are modelled as sequential atomic steps.
- Dashboard.DashboardKpis: `total_expense`, a floating-point `SUM(amount)`, is not modelled; only the four counts are.
- Dashboard.UserExpenses: the column projection (date, head, subhead, amount) and `ORDER BY expense_date DESC` are not modelled; it returns the rows as a map.
- Dashboard.Holds: `expense_date = %s` is compared as text, without the database's date parsing.
- Numerals.ParseInt: Python's int() also accepts surrounding whitespace, underscores between digits and non-ASCII digits. Only an ASCII sign and digits are modelled. The digit limit is CPython's default of 4300; a process that changes it with `sys.set_int_max_str_digits` is not modelled.
- Pie-chart endpoints, the admin pending listing, and the static browser scripts are outside the modelled core.
- Users.UserTable.Register and Users.UserTable.CreateUser: the UNIQUE constraint on users.email is modelled only through the code's own SELECT check. A concurrent insert racing that check is not modelled.
- Floating-point values: `weight` and `amount` are `real`. Only their truthiness (zero or not) matters to the model.
