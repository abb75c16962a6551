/** The invoice selection wizard: find the open receivable or payable move
    lines of the voucher's party, let the user pick some, and turn each
    picked line into a voucher line. */
module SelectInvoices {
  import opened VoucherModel
  import opened MoveEntries
  import opened Records

  /** The account kinds the search can ask for. */
  datatype AccountKind = Receivable | Payable

  /** The move-line search filter: lines of `party` on accounts of one of
      `accountKinds`, in move-line state `moveState`, with `reconciled` telling
      whether they carry a reconciliation. */
  datatype LineDomain = LineDomain(party: PartyId, accountKinds: seq<AccountKind>, moveState: string, reconciled: bool)

  /** The wizard's states; `End` closes it. */
  datatype WizardState = SearchLinesStep | SelectLinesStep | AddLinesStep | End

  /** A move line the search found: its id and the record itself. */
  datatype Pick = Pick(id: MoveLineId, line: MoveLine)

  /** The wizard session: the move lines shown to, and then picked by, the user. */
  class Session {
    var lines: seq<Pick>

    constructor ()
      ensures lines == []
    {
      lines := [];
    }
  }

  /** Receipts settle receivable lines, payments payable ones. */
  function AccountKinds(t: VoucherType): (kinds: seq<AccountKind>)
    ensures |kinds| == 1
    ensures kinds[0] == Receivable <==> t == Receipt
    ensures kinds[0] == Payable <==> t == Payment
  {
    match t
    case Receipt => [Receivable]
    case Payment => [Payable]
  }

  /** The filter for a voucher: its party's valid, unreconciled lines on the
      account kind its type settles. */
  function SearchDomain(v: Voucher): (d: LineDomain)
    ensures d.party == v.party && d.moveState == "valid" && !d.reconciled
    ensures |d.accountKinds| == 1
    ensures d.accountKinds[0] == Receivable <==> v.voucherType == Receipt
    ensures d.accountKinds[0] == Payable <==> v.voucherType == Payment
  {
    LineDomain(v.party, AccountKinds(v.voucherType), "valid", false)
  }

  /** `transition_search_lines`: runs the search (a service of the host,
      given here as `search`) with the voucher's filter, keeps the found
      lines in the session and moves on to the selection view. */
  method TransitionSearchLines(db: Database, session: Session, activeId: VoucherId,
                               search: LineDomain -> seq<Pick>)
    returns (next: WizardState)
    requires activeId in db.vouchers
    modifies session
    ensures var v := db.vouchers[activeId];
      session.lines == search(SearchDomain(v)) && next == SelectLinesStep
  {
    var v := db.vouchers[activeId];
    session.lines := search(SearchDomain(v));
    next := SelectLinesStep;
  }

  /** The voucher line made from one picked move line: a credit line for
      the line's credit when that is non-zero, otherwise a debit line for its
      debit; nothing of it is reconciled yet. */
  function VoucherLineFor(p: Pick): VoucherLine
  {
    if p.line.credit != 0 then VoucherLine(p.line.name, p.line.account, p.line.credit, p.line.credit, Cr, p.id)
    else VoucherLine(p.line.name, p.line.account, p.line.debit, p.line.debit, Dr, p.id)
  }

  /** The picked move line records. */
  function Lines(picks: seq<Pick>): (mls: seq<MoveLine>)
    ensures |mls| == |picks|
    ensures forall i :: 0 <= i < |picks| ==> mls[i] == picks[i].line
  {
    if picks == [] then [] else Lines(picks[..|picks| - 1]) + [picks[|picks| - 1].line]
  }

  /** The voucher lines made from the picked move lines, in pick order. */
  function VoucherLinesFor(picks: seq<Pick>): (ls: seq<VoucherLine>)
    ensures |ls| == |picks|
    ensures forall i :: 0 <= i < |picks| ==> ls[i] == VoucherLineFor(picks[i])
  {
    if picks == [] then [] else VoucherLinesFor(picks[..|picks| - 1]) + [VoucherLineFor(picks[|picks| - 1])]
  }

  /** The loop of `transition_add_lines`: one voucher line per picked move
      line, and the credit and debit totals of the picked lines. */
  method NewVoucherLines(picks: seq<Pick>)
    returns (created: seq<VoucherLine>, totalCredit: int, totalDebit: int)
    ensures created == VoucherLinesFor(picks)
    ensures totalCredit == TotalCredit(Lines(picks))
    ensures totalDebit == TotalDebit(Lines(picks))
  {
    created, totalCredit, totalDebit := [], 0, 0;
    var i := 0;
    while i < |picks|
      invariant 0 <= i <= |picks|
      invariant created == VoucherLinesFor(picks[..i])
      invariant totalCredit == TotalCredit(Lines(picks[..i]))
      invariant totalDebit == TotalDebit(Lines(picks[..i]))
    {
      var line := picks[i].line;
      totalCredit := totalCredit + line.credit;
      totalDebit := totalDebit + line.debit;
      var lineType, amount;
      if line.credit != 0 {
        lineType, amount := Cr, line.credit;
      } else {
        lineType, amount := Dr, line.debit;
      }
      created := created + [VoucherLine(line.name, line.account, amount, amount, lineType, picks[i].id)];
      assert picks[..i + 1][..i] == picks[..i];
      i := i + 1;
    }
    assert picks[..i] == picks;
  }

  /** `transition_add_lines`: appends to the active voucher one voucher line
      per picked move line and closes the wizard. Nothing else on the voucher
      changes, and no other voucher changes. */
  method TransitionAddLines(db: Database, session: Session, activeId: VoucherId)
    returns (next: WizardState)
    requires activeId in db.vouchers
    modifies db`vouchers
    ensures var v := old(db.vouchers)[activeId];
      db.vouchers == old(db.vouchers)[activeId := v.(lines := v.lines + VoucherLinesFor(session.lines))]
    ensures next == End
  {
    var created, totalCredit, totalDebit := NewVoucherLines(session.lines);
    var v := db.vouchers[activeId];
    db.WriteVoucher(activeId, v.(lines := v.lines + created));
    next := End;
  }

  /** What each new voucher line records about its move line: its type
      follows the non-zero side, its amount is that side, it is wholly
      unreconciled, and it points back at the move line and its account. */
  lemma VoucherLineOfPick(picks: seq<Pick>, i: nat)
    requires i < |picks|
    ensures var l := VoucherLinesFor(picks)[i];
      var ml := picks[i].line;
      (l.lineType == Cr <==> ml.credit != 0) &&
      l.amountOriginal == (if ml.credit != 0 then ml.credit else ml.debit) &&
      l.amountUnreconciled == l.amountOriginal &&
      l.moveLine == picks[i].id && l.account == ml.account && l.name == ml.name
  {
  }

  /** When every picked line has only one non-zero side, the voucher lines
      add up to the picked credits plus the picked debits: the two totals
      the wizard accumulates. */
  lemma {:induction false} OneSidedSelectionTotal(picks: seq<Pick>)
    requires forall i :: 0 <= i < |picks| ==> picks[i].line.debit == 0 || picks[i].line.credit == 0
    ensures LineSum(VoucherLinesFor(picks)) == TotalCredit(Lines(picks)) + TotalDebit(Lines(picks))
    decreases |picks|
  {
    if picks != [] {
      var n := |picks| - 1;
      OneSidedSelectionTotal(picks[..n]);
      var ls := VoucherLinesFor(picks);
      assert ls[..n] == VoucherLinesFor(picks[..n]);
      var mls := Lines(picks);
      assert mls[..n] == Lines(picks[..n]);
    }
  }

  /** The mirror entry posted for a picked line cancels it: it is on the
      same account, and debit plus mirror debit equals credit plus mirror
      credit, provided a receipt picks a line without credit and a payment
      a line without debit. */
  lemma MirrorEntryCancelsPick(v: Voucher, picks: seq<Pick>, move: MoveId, period: PeriodId, i: nat)
    requires i < |picks|
    requires v.voucherType == Receipt ==> picks[i].line.credit == 0
    requires v.voucherType == Payment ==> picks[i].line.debit == 0
    ensures var ml := picks[i].line;
      var e := LineEntries(v, VoucherLinesFor(picks), move, period)[i];
      e.account == ml.account && ml.debit + e.debit == ml.credit + e.credit
  {
  }

  /** Posting a voucher made of picked lines settles them in total: on a
      receipt the picked lines carry no credit, on a payment no debit, and then
      the mirror entries posted for the voucher lines balance the picked lines
      column for column. */
  lemma {:induction false} MirrorEntriesSettlePicks(v: Voucher, picks: seq<Pick>, move: MoveId, period: PeriodId)
    requires v.voucherType == Receipt ==> forall i :: 0 <= i < |picks| ==> picks[i].line.credit == 0
    requires v.voucherType == Payment ==> forall i :: 0 <= i < |picks| ==> picks[i].line.debit == 0
    ensures var mls := Lines(picks);
      var es := LineEntries(v, VoucherLinesFor(picks), move, period);
      TotalDebit(mls) + TotalDebit(es) == TotalCredit(mls) + TotalCredit(es)
    decreases |picks|
  {
    if picks != [] {
      var n := |picks| - 1;
      MirrorEntriesSettlePicks(v, picks[..n], move, period);
      MirrorEntryCancelsPick(v, picks, move, period, n);
      var ls := VoucherLinesFor(picks);
      assert ls[..n] == VoucherLinesFor(picks[..n]);
      var es := LineEntries(v, ls, move, period);
      assert es[..n] == LineEntries(v, ls[..n], move, period);
      var mls := Lines(picks);
      assert mls[..n] == Lines(picks[..n]);
    }
  }
}
