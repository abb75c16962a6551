/** The ledger entries a voucher posts: one per pay-mode line, on the pay
    mode's account, followed by one mirror entry per voucher line, on the
    line's own account. A receipt debits the pay modes and credits the
    voucher lines; a payment does the reverse. */
module MoveEntries {
  import opened VoucherModel

  /** The entry for one pay-mode line (no date is set on it). */
  function PayEntry(v: Voucher, p: PayModeLine, move: MoveId, period: PeriodId): MoveLine
  {
    var (debit, credit) := if v.voucherType == Receipt then (p.payAmount, 0) else (0, p.payAmount);
    MoveLine(v.number, debit, credit, p.payMode.account, move, v.journal, period, None, v.party)
  }

  /** The mirror entry for one voucher line (dated with the voucher's date). */
  function LineEntry(v: Voucher, l: VoucherLine, move: MoveId, period: PeriodId): MoveLine
  {
    var (debit, credit) := if v.voucherType == Receipt then (0, l.amountOriginal) else (l.amountOriginal, 0);
    MoveLine(v.number, debit, credit, l.account, move, v.journal, period, Some(v.date), v.party)
  }

  /** The entries for the pay-mode lines `pls`, in their order. */
  function PayEntries(v: Voucher, pls: seq<PayModeLine>, move: MoveId, period: PeriodId): (es: seq<MoveLine>)
    ensures |es| == |pls|
    ensures forall i :: 0 <= i < |pls| ==> es[i] == PayEntry(v, pls[i], move, period)
  {
    if pls == [] then []
    else PayEntries(v, pls[..|pls| - 1], move, period) + [PayEntry(v, pls[|pls| - 1], move, period)]
  }

  /** The entries for the voucher lines `ls`, in their order. */
  function LineEntries(v: Voucher, ls: seq<VoucherLine>, move: MoveId, period: PeriodId): (es: seq<MoveLine>)
    ensures |es| == |ls|
    ensures forall i :: 0 <= i < |ls| ==> es[i] == LineEntry(v, ls[i], move, period)
  {
    if ls == [] then []
    else LineEntries(v, ls[..|ls| - 1], move, period) + [LineEntry(v, ls[|ls| - 1], move, period)]
  }

  /** All entries of a voucher: pay-mode entries first, then voucher-line
      entries, one per line. */
  function Entries(v: Voucher, move: MoveId, period: PeriodId): (es: seq<MoveLine>)
    ensures |es| == |v.payLines| + |v.lines|
  {
    PayEntries(v, v.payLines, move, period) + LineEntries(v, v.lines, move, period)
  }

  /** The invoice move lines the voucher lines point at, in line order. */
  function MoveLineIds(ls: seq<VoucherLine>): (ids: seq<MoveLineId>)
    ensures |ids| == |ls|
    ensures forall i :: 0 <= i < |ls| ==> ids[i] == ls[i].moveLine
  {
    if ls == [] then [] else MoveLineIds(ls[..|ls| - 1]) + [ls[|ls| - 1].moveLine]
  }

  /** The two loops of `prepare_moves`. `lineMoveIds` is None when the voucher
      has no lines: the list is only created inside `if voucher.lines:`, so
      it is never bound in that case. */
  method BuildEntries(v: Voucher, move: MoveId, period: PeriodId)
    returns (newMoves: seq<MoveLine>, lineMoveIds: Option<seq<MoveLineId>>)
    ensures newMoves == Entries(v, move, period)
    ensures lineMoveIds == if v.lines == [] then None else Some(MoveLineIds(v.lines))
  {
    newMoves := [];
    if v.payLines != [] {
      var i := 0;
      while i < |v.payLines|
        invariant 0 <= i <= |v.payLines|
        invariant newMoves == PayEntries(v, v.payLines[..i], move, period)
      {
        newMoves := newMoves + [PayEntry(v, v.payLines[i], move, period)];
        assert v.payLines[..i + 1][..i] == v.payLines[..i];
        i := i + 1;
      }
      assert v.payLines[..i] == v.payLines;
    }
    ghost var payPart := newMoves;
    lineMoveIds := None;
    if v.lines != [] {
      var ids := [];
      var j := 0;
      while j < |v.lines|
        invariant 0 <= j <= |v.lines|
        invariant ids == MoveLineIds(v.lines[..j])
        invariant newMoves == payPart + LineEntries(v, v.lines[..j], move, period)
      {
        ids := ids + [v.lines[j].moveLine];
        newMoves := newMoves + [LineEntry(v, v.lines[j], move, period)];
        assert v.lines[..j + 1][..j] == v.lines[..j];
        j := j + 1;
      }
      assert v.lines[..j] == v.lines;
      lineMoveIds := Some(ids);
    }
  }

  /** Where each entry comes from and what it carries: position i < |pay
      lines| is pay line i on its pay mode's account; the rest are the voucher
      lines in order on their own accounts; all carry the voucher's number,
      journal and party, the move and the period. */
  lemma EntriesAt(v: Voucher, move: MoveId, period: PeriodId, i: nat)
    requires i < |v.payLines| + |v.lines|
    ensures var e := Entries(v, move, period)[i];
      e.name == v.number && e.move == move && e.journal == v.journal &&
      e.period == period && e.party == v.party &&
      (i < |v.payLines| ==>
         var p := v.payLines[i];
         e.account == p.payMode.account && e.date == None &&
         (v.voucherType == Receipt ==> e.debit == p.payAmount && e.credit == 0) &&
         (v.voucherType == Payment ==> e.debit == 0 && e.credit == p.payAmount)) &&
      (|v.payLines| <= i ==>
         var l := v.lines[i - |v.payLines|];
         e.account == l.account && e.date == Some(v.date) &&
         (v.voucherType == Receipt ==> e.debit == 0 && e.credit == l.amountOriginal) &&
         (v.voucherType == Payment ==> e.debit == l.amountOriginal && e.credit == 0))
  {
  }

  /** Column sums of the pay-mode entries: the pay total lands in the debit
      column of a receipt and in the credit column of a payment. */
  lemma {:induction false} PayEntriesTotals(v: Voucher, pls: seq<PayModeLine>, move: MoveId, period: PeriodId)
    ensures TotalDebit(PayEntries(v, pls, move, period)) == if v.voucherType == Receipt then PaySum(pls) else 0
    ensures TotalCredit(PayEntries(v, pls, move, period)) == if v.voucherType == Receipt then 0 else PaySum(pls)
    decreases |pls|
  {
    if pls != [] {
      var es := PayEntries(v, pls, move, period);
      PayEntriesTotals(v, pls[..|pls| - 1], move, period);
      assert es[..|es| - 1] == PayEntries(v, pls[..|pls| - 1], move, period);
    }
  }

  /** Column sums of the voucher-line entries: the line total lands in the
      credit column of a receipt and in the debit column of a payment. */
  lemma {:induction false} LineEntriesTotals(v: Voucher, ls: seq<VoucherLine>, move: MoveId, period: PeriodId)
    ensures TotalDebit(LineEntries(v, ls, move, period)) == if v.voucherType == Receipt then 0 else LineSum(ls)
    ensures TotalCredit(LineEntries(v, ls, move, period)) == if v.voucherType == Receipt then LineSum(ls) else 0
    decreases |ls|
  {
    if ls != [] {
      var es := LineEntries(v, ls, move, period);
      LineEntriesTotals(v, ls[..|ls| - 1], move, period);
      assert es[..|es| - 1] == LineEntries(v, ls[..|ls| - 1], move, period);
    }
  }

  /** Column sums of all entries of a voucher. */
  lemma EntriesTotals(v: Voucher, move: MoveId, period: PeriodId)
    ensures var es := Entries(v, move, period);
      TotalDebit(es) == (if v.voucherType == Receipt then PaySum(v.payLines) else LineSum(v.lines)) &&
      TotalCredit(es) == (if v.voucherType == Receipt then LineSum(v.lines) else PaySum(v.payLines))
  {
    TotalsAppend(PayEntries(v, v.payLines, move, period), LineEntries(v, v.lines, move, period));
    PayEntriesTotals(v, v.payLines, move, period);
    LineEntriesTotals(v, v.lines, move, period);
  }

  /** Double entry: the entries balance exactly when the pay-mode total equals
      the voucher-line total, which is what the partial-payment guard checks;
      both columns then add up to that total. */
  lemma Balanced(v: Voucher, move: MoveId, period: PeriodId)
    ensures var es := Entries(v, move, period);
      TotalDebit(es) == TotalCredit(es) <==> PaySum(v.payLines) == LineSum(v.lines)
    ensures var es := Entries(v, move, period);
      PaySum(v.payLines) == LineSum(v.lines) ==> TotalDebit(es) == PaySum(v.payLines)
  {
    EntriesTotals(v, move, period);
  }

  /** A payment posts the debit/credit mirror image of the receipt with the
      same lines: the same entries with the two columns swapped. */
  lemma ReceiptPaymentMirror(v: Voucher, move: MoveId, period: PeriodId)
    ensures var r := Entries(v.(voucherType := Receipt), move, period);
      var p := Entries(v.(voucherType := Payment), move, period);
      |r| == |p| &&
      forall i :: 0 <= i < |r| ==> r[i] == p[i].(debit := p[i].credit, credit := p[i].debit)
  {
    var vr, vp := v.(voucherType := Receipt), v.(voucherType := Payment);
    forall i | 0 <= i < |v.payLines| + |v.lines|
      ensures Entries(vr, move, period)[i] ==
              Entries(vp, move, period)[i].(debit := Entries(vp, move, period)[i].credit,
                                            credit := Entries(vp, move, period)[i].debit)
    {
      EntriesAt(vr, move, period, i);
      EntriesAt(vp, move, period, i);
    }
  }
}
