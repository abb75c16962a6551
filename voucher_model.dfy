/** The records of the voucher module and the ledger records it reads and
    writes. Monetary fields are decimals with two fractional digits; they are
    held here exactly, as whole cents. Identifiers of other Tryton records
    (parties, journals, accounts, periods) are plain numbers. */
module VoucherModel {

  type VoucherId = nat
  type PartyId = nat
  type JournalId = nat
  type AccountId = nat
  type PeriodId = nat
  type CompanyId = nat
  type MoveId = nat
  type MoveLineId = nat

  /** A calendar date, as a day number. */
  type Date = int

  datatype Option<T> = None | Some(value: T)

  /** The `voucher_type` selection. */
  datatype VoucherType = Payment | Receipt

  /** The `state` selection shared by vouchers and ledger moves. */
  datatype State = Draft | Posted

  /** The `line_type` selection of a voucher line: credit or debit. */
  datatype LineType = Cr | Dr

  /** A payment channel (cash, bank, ...) bound to a ledger account. */
  datatype PayMode = PayMode(name: string, account: AccountId)

  /** An allocation of part of the voucher to a pay mode. */
  datatype PayModeLine = PayModeLine(payMode: PayMode, payAmount: int)

  /** An allocation of the voucher against an existing ledger move line. */
  datatype VoucherLine = VoucherLine(
    name: Option<string>,
    account: AccountId,
    amountOriginal: int,
    amountUnreconciled: int,
    lineType: LineType,
    moveLine: MoveLineId)

  /** A payment or receipt voucher with its two ordered child collections. */
  datatype Voucher = Voucher(
    number: Option<string>,
    party: PartyId,
    voucherType: VoucherType,
    date: Date,
    journal: JournalId,
    payLines: seq<PayModeLine>,
    lines: seq<VoucherLine>,
    state: State)

  /** A ledger move (the parent of balanced move lines). */
  datatype Move = Move(
    name: Option<string>,
    period: PeriodId,
    journal: JournalId,
    date: Date,
    state: State)

  /** A ledger move line. `date` is absent on the lines the voucher builds
      for its pay modes and present on those it builds for its voucher lines. */
  datatype MoveLine = MoveLine(
    name: Option<string>,
    debit: int,
    credit: int,
    account: AccountId,
    move: MoveId,
    journal: JournalId,
    period: PeriodId,
    date: Option<Date>,
    party: PartyId)

  /** Sum of `pay_amount` over pay-mode lines. */
  function PaySum(pls: seq<PayModeLine>): int
  {
    if pls == [] then 0 else PaySum(pls[..|pls| - 1]) + pls[|pls| - 1].payAmount
  }

  /** Sum of `amount_original` over voucher lines. */
  function LineSum(ls: seq<VoucherLine>): int
  {
    if ls == [] then 0 else LineSum(ls[..|ls| - 1]) + ls[|ls| - 1].amountOriginal
  }

  /** Sum of the debit column. */
  function TotalDebit(mls: seq<MoveLine>): int
  {
    if mls == [] then 0 else TotalDebit(mls[..|mls| - 1]) + mls[|mls| - 1].debit
  }

  /** Sum of the credit column. */
  function TotalCredit(mls: seq<MoveLine>): int
  {
    if mls == [] then 0 else TotalCredit(mls[..|mls| - 1]) + mls[|mls| - 1].credit
  }

  /** Both column sums distribute over concatenation. */
  lemma {:induction false} TotalsAppend(a: seq<MoveLine>, b: seq<MoveLine>)
    ensures TotalDebit(a + b) == TotalDebit(a) + TotalDebit(b)
    ensures TotalCredit(a + b) == TotalCredit(a) + TotalCredit(b)
    decreases |b|
  {
    if b != [] {
      var n := |b| - 1;
      assert (a + b)[..|a + b| - 1] == a + b[..n];
      TotalsAppend(a, b[..n]);
    } else {
      assert a + b == a;
    }
  }
}
