# Payment and receipt vouchers for Tryton, modelled in Dafny

This project models the posting logic of the `account_voucher_ar` Tryton
module. A voucher records money received (a receipt) or paid out (a
payment). Pay-mode lines say which channels (cash, bank, ...) the money goes
through. Voucher lines say which open invoice move lines it settles. Posting
does these things, in order:

1. It numbers the voucher.
2. It refuses a partial payment.
3. It creates a ledger move.
4. It builds one entry per pay-mode line and a mirror entry per voucher line.
5. It creates those entries and posts the move.
6. It reconciles the new lines on reconcilable accounts together with the invoice lines.
7. It marks the voucher posted.

An invoice selection wizard fills a voucher's lines from the party's open
receivable or payable move lines.

Amounts are decimals with two fractional digits. They are modelled exactly,
as integers counting cents.

Modules, leaf first:

- `VoucherModel` (voucher_model.dfy): the records and the column sums.
- `Totals` (totals.dfy): the computed fields `amount` and `amount_pay`.
- `MoveEntries` (move_entries.dfy): the entries of a voucher and the double-entry lemmas.
- `Records` (records.dfy): a `Database` class standing in for the ORM's tables.
  - Vouchers are kept in a map by id.
  - Moves and move lines are kept in sequences. A row's identifier is its position, so creating a row appends it.
  - Each call to the reconciliation service is logged.
- `AccountVoucher` (account_voucher.dfy): `set_number`, `prepare_moves`, `create_moves` and `post` as methods over the `Database`.
- `SelectInvoices` (select_invoices.dfy): the wizard's two transitions.

Collaborators of the host framework become parameters:

- The voucher sequence becomes the `number` argument of `Post`.
- The period lookup becomes a total function `findPeriod: (CompanyId, Date) -> PeriodId`.
- The move-line search becomes a function `search` from the search filter to the found move lines. Each found line is a `Pick`: its id together with its record, as the wizard session holds records.
- Reconciliation is a recorded effect: the list of ids handed to it is appended to `Database.reconciliations`.

Behaviour of the code that the model keeps as written:

- `post` has no state guard. The `post` button is only hidden on posted vouchers (account_voucher_ar.py:77-79).
- `post` receives the list of selected ids and posts only the first one (account_voucher_ar.py:215-216). An empty list fails before anything is written.
- `pay_amount` sets its accumulator to zero once, before the loop over the vouchers (account_voucher_ar.py:118). Each voucher therefore gets the running total up to and including it.
- `prepare_moves` creates the move itself, after the partial-payment guard and before any entry is built (account_voucher_ar.py:133-138).
- `post` calls `set_number` before `prepare_moves` checks for a partial payment (account_voucher_ar.py:215-216).
- The entries built for pay-mode lines carry no date. Only the entries built for voucher lines carry one (account_voucher_ar.py:152-161, 177-187).
- `line_move_ids` is bound only inside `if voucher.lines:` (account_voucher_ar.py:166-167). For a voucher without lines, building the result of `prepare_moves` fails after the move has been created. The model returns `Err(LineMoveIdsUnbound)`.
- Every period lookup passes the literal company 1 (account_voucher_ar.py:135, 159, 184). The voucher's own company is not used. The model calls `findPeriod(PeriodCompany, date)` with `PeriodCompany = 1`.

## Model

| member | source | states |
|---|---|---|
| `Totals.AmountTotal` | account_voucher_ar.py:107-114 | Every requested voucher id is a key of the result, and nothing else is. Each voucher gets the sum of its pay lines' `pay_amount`, which is 0 when it has none. |
| `Totals.PayAmount` | account_voucher_ar.py:116-124 | The result is `RunningTotals` of the batch. The accumulator is never reset, so each voucher in turn gets the running line sum up to and including it. A later occurrence of an id overwrites an earlier one. |
| `Totals.RunningTotalsKeys` | account_voucher_ar.py:118-124 | Every requested id is a key of the `pay_amount` result, and nothing else is. |
| `Totals.RunningTotalsAt` | account_voucher_ar.py:118-124 | An id whose last occurrence in the batch is at position k gets the running sum of `amount_original` over the lines of the vouchers at positions 0..k. |
| `Totals.RunningTotalsSingle` | account_voucher_ar.py:118-124 | A batch of one voucher gets exactly that voucher's line sum. This is the call `prepare_moves` makes. |
| `Totals.RunningTotalCarriesOver` | account_voucher_ar.py:118-123 | Two vouchers with one 100.00 line each, computed in one batch: `pay_amount` gives 100.00 for the first and 200.00 for the second, although the second settles only 100.00. |
| `MoveEntries.PayEntries` | account_voucher_ar.py:143-161 | Exactly one entry per pay-mode line, in order. Entry i is the entry of pay line i. |
| `MoveEntries.LineEntries` | account_voucher_ar.py:166-187 | Exactly one entry per voucher line, in order. Entry i is the mirror entry of voucher line i. |
| `MoveEntries.Entries` | account_voucher_ar.py:143-187 | The number of entries is the number of pay lines plus the number of voucher lines. |
| `MoveEntries.MoveLineIds` | account_voucher_ar.py:166-169 | One id per voucher line, in line order. The i-th is line i's `move_line`. |
| `MoveEntries.BuildEntries` | account_voucher_ar.py:140-187 | The two loops of `prepare_moves`. `new_moves` is all pay entries followed by all voucher-line entries. `line_move_ids` is the lines' move-line ids, or unbound (None) when the voucher has no lines. |
| `MoveEntries.EntriesAt` | account_voucher_ar.py:143-187 | Pay entry i: on the pay mode's account, undated, debit = `pay_amount` and credit = 0 for a receipt, the reverse otherwise. Entry number \|pay lines\| + i: on voucher line i's account, dated with the voucher date, credit = `amount_original` for a receipt and debit otherwise. Every entry carries the voucher's number, journal and party, the move and the period. |
| `MoveEntries.PayEntriesTotals` | account_voucher_ar.py:143-161 | The pay-line total is the debit total of a receipt's pay entries, and the credit total of a payment's. The other column is 0. |
| `MoveEntries.LineEntriesTotals` | account_voucher_ar.py:166-187 | The voucher-line total is the credit total of a receipt's line entries, and the debit total of a payment's. The other column is 0. |
| `MoveEntries.EntriesTotals` | account_voucher_ar.py:143-187 | Column sums of all entries: debit = pay total and credit = line total for a receipt, the reverse for a payment. |
| `MoveEntries.Balanced` | account_voucher_ar.py:131-187 | Total debit equals total credit if and only if Σ`pay_amount` = Σ`amount_original`. That is exactly when the partial-payment guard lets the voucher through, and both columns then equal that total. |
| `MoveEntries.ReceiptPaymentMirror` | account_voucher_ar.py:145-175 | A payment's entries are the receipt's entries for the same lines, with debit and credit swapped, position by position. |
| `AccountVoucher.ReconcilableIdsSpec` | account_voucher_ar.py:204-206 | A created line's id is selected for reconciliation exactly when its account is reconcilable. Only created ids are selected, and they stay in strictly increasing creation order. |
| `AccountVoucher.SetNumber` | account_voucher_ar.py:99-105 | The voucher's number becomes the supplied sequence number. Nothing else in the store changes. |
| `AccountVoucher.PrepareMoves` | account_voucher_ar.py:126-193 | If `amount` ≠ `amount_pay`, the result is `partial_pay` and no move is created. Otherwise one draft move is created, stamped with the voucher's number, period, journal and date. The result is then either the unbound-ids failure (no voucher lines) or the voucher's entries, its lines' move-line ids, the voucher id and the new move id. Returned entries always balance. |
| `AccountVoucher.CreateMoves` | account_voucher_ar.py:195-211 | Appends one line per prepared entry, in order, and sets the move's state to posted. Makes one reconcile call, on the created ids with reconcilable accounts followed by the invoice move lines. Sets the voucher's state to posted and changes nothing else. |
| `AccountVoucher.Post` | account_voucher_ar.py:213-223 | An empty selection, and only that, gives `EmptySelection` and changes nothing. Otherwise only the first selected voucher is posted, and no other voucher changes. Its number is assigned in every outcome. `partial_pay` happens exactly when the totals differ, and then no move, line or reconciliation is produced. On success, the following hold. The move is posted and named with the new number. The created lines are the numbered voucher's entries, so each is named with the new number, and they balance. Reconciliation covers the reconcilable created lines and then every voucher line's move line. The voucher is posted. |
| `Records.Database.CreateMove` | account_voucher_ar.py:133-138 | The new move gets the next identifier and is appended. |
| `Records.Database.CreateMoveLine` | account_voucher_ar.py:201-202 | The new move line gets the next identifier and is appended. |
| `Records.Database.WriteMoveState` | account_voucher_ar.py:203 | Only the state of the given move changes. |
| `Records.Database.WriteVoucher` | account_voucher_ar.py:210 | The `account.voucher` write used by `set_number`, `create_moves` and the wizard. The given voucher is replaced, and no other voucher changes. |
| `Records.Database.Reconcile` | account_voucher_ar.py:209 | The reconciled id list is recorded, in order. |
| `SelectInvoices.AccountKinds` | account_voucher_ar.py:279-282 | One account kind: receivable exactly for a receipt, payable exactly for a payment. |
| `SelectInvoices.SearchDomain` | account_voucher_ar.py:283-288 | The filter asks for the voucher's party, state `valid` and no reconciliation. It has one account kind, receivable exactly for a receipt and payable exactly for a payment. |
| `SelectInvoices.TransitionSearchLines` | account_voucher_ar.py:275-290 | The session holds the search result for the voucher's filter: its party, the account kind for its type, valid and unreconciled. The next state is the selection view. |
| `SelectInvoices.VoucherLinesFor` | account_voucher_ar.py:307-324 | One voucher line per picked move line, in pick order. |
| `SelectInvoices.NewVoucherLines` | account_voucher_ar.py:304-324 | The loop yields the voucher lines of the picks. `total_credit` and `total_debit` are the credit and debit sums of the picked lines. |
| `SelectInvoices.TransitionAddLines` | account_voucher_ar.py:298-326 | Appends the new lines to the active voucher, changes nothing else, and ends the wizard. |
| `SelectInvoices.VoucherLineOfPick` | account_voucher_ar.py:310-323 | Line i is `cr` exactly when the pick's credit is non-zero. Its amount is that credit, or else the debit. `amount_unreconciled` equals `amount_original`. It points at the picked move line and its account. |
| `SelectInvoices.OneSidedSelectionTotal` | account_voucher_ar.py:304-320 | If every pick has one zero side, the new lines' `amount_original` sum is `total_credit` + `total_debit`. |
| `SelectInvoices.MirrorEntryCancelsPick` | account_voucher_ar.py:170-187 | A pick with no credit on a receipt, or no debit on a payment, is cancelled by its mirror entry. The entry is on the same account, and debit plus mirror debit equals credit plus mirror credit. |
| `SelectInvoices.MirrorEntriesSettlePicks` | account_voucher_ar.py:170-187 | Under the same condition, the mirror entries of all picked lines balance the picks column for column in total. |

## Left out

- Field, view and selection declarations, the read-only state bindings, the `default_*` methods and the wizard's view and buttons: declarative metadata and host plumbing with no behaviour to verify. Cancelling the wizard runs no code of the module.
- The internals of the voucher sequence. `set_number` reads the singleton configuration and asks `ir.sequence` for the next number; here the number is a parameter.
- The evaluation of the move-line search filter, period lookup and the reconciliation service itself. These are calls into the host; they are parameters or recorded effects.
- The period lookup: it always searches the periods of company 1, and the model's `findPeriod` is total. When no period of company 1 contains the voucher date, the host call fails. The model does not represent that failure.
- Transactions. In Tryton an exception rolls back the request's writes. The model does not, so after a failed `Post` the store shows the writes done before the failure:
  - the new voucher number, for `partial_pay`;
  - the new number and the created draft move, for the unbound-ids failure.
- Missing values: `amount_original`, `pay_amount`, `move_line` and `debit`/`credit` are always present in the model. The source would fail on a missing value: `Decimal(str(None))`, `None.id`, adding `None`.
- The order in which the ORM lists a voucher's lines. The model appends the lines the wizard creates after the existing ones.
- The fields the core never reads: the memo, currency and comment of a voucher, and a voucher line's `amount`. The voucher's company is not kept either, because no code of the core reads it: the period lookups use company 1. The no-op `voucher.write(active_id, {})` at the end of the wizard is also left out.
