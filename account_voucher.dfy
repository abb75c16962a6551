/** Posting a voucher: number it, prepare its ledger entries, create them
    under a new move, post the move, reconcile, and mark the voucher posted. */
module AccountVoucher {
  import opened VoucherModel
  import opened Totals
  import opened MoveEntries
  import opened Records

  /** Why posting stopped. `PartialPay` is the user error `partial_pay`;
      `LineMoveIdsUnbound` is the failure of building the result of
      `prepare_moves` for a voucher without lines, whose list of invoice move
      lines was never bound. */
  datatype PostError = PartialPay | LineMoveIdsUnbound | EmptySelection

  datatype Result<T> = Ok(value: T) | Err(error: PostError)

  /** What `prepare_moves` hands to `create_moves`. */
  datatype Prepared = Prepared(
    newMoves: seq<MoveLine>,
    invoiceMoves: seq<MoveLineId>,
    voucherId: VoucherId,
    moveId: MoveId)

  /** The identifiers, among lines created with consecutive identifiers from
      `first`, of those whose account is reconcilable, in creation order. */
  function ReconcilableIds(first: MoveLineId, created: seq<MoveLine>, reconcilable: set<AccountId>): seq<MoveLineId>
  {
    if created == [] then []
    else
      var n := |created| - 1;
      ReconcilableIds(first, created[..n], reconcilable) +
      (if created[n].account in reconcilable then [first + n] else [])
  }

  /** Strictly increasing identifiers, that is, creation order. */
  predicate Increasing(ids: seq<MoveLineId>)
  {
    forall j, k :: 0 <= j < k < |ids| ==> ids[j] < ids[k]
  }

  /** A created line is selected exactly when its account is reconcilable;
      nothing else is selected, and the selection keeps creation order. */
  lemma {:induction false} ReconcilableIdsSpec(first: MoveLineId, created: seq<MoveLine>, reconcilable: set<AccountId>)
    ensures forall i :: 0 <= i < |created| ==>
              (first + i in ReconcilableIds(first, created, reconcilable) <==> created[i].account in reconcilable)
    ensures forall x :: x in ReconcilableIds(first, created, reconcilable) ==> first <= x < first + |created|
    ensures Increasing(ReconcilableIds(first, created, reconcilable))
    decreases |created|
  {
    if created != [] {
      var n := |created| - 1;
      ReconcilableIdsSpec(first, created[..n], reconcilable);
      assert forall i :: 0 <= i < n ==> created[..n][i] == created[i];
      var pre := ReconcilableIds(first, created[..n], reconcilable);
      var ids := ReconcilableIds(first, created, reconcilable);
      assert ids == pre + (if created[n].account in reconcilable then [first + n] else []);
      forall j, k | 0 <= j < k < |ids|
        ensures ids[j] < ids[k]
      {
        assert ids[j] == pre[j];
        if k >= |pre| {
          assert ids[k] == first + n;
          assert pre[j] in pre;
          assert pre[j] < first + |created[..n]|;
        } else {
          assert ids[k] == pre[k];
          assert pre[j] < pre[k];
        }
      }
    }
  }

  /** The company whose periods every period lookup searches: the lookups
      pass the literal company 1, whatever the voucher's company. */
  const PeriodCompany: CompanyId := 1

  /** `set_number`: writes the number the voucher sequence hands out. */
  method SetNumber(db: Database, voucherId: VoucherId, number: string)
    requires voucherId in db.vouchers
    modifies db`vouchers
    ensures db.vouchers == old(db.vouchers)[voucherId := old(db.vouchers)[voucherId].(number := Some(number))]
  {
    db.WriteVoucher(voucherId, db.vouchers[voucherId].(number := Some(number)));
  }

  /** `prepare_moves`. The partial-payment guard runs first and changes
      nothing; otherwise a draft move stamped with the voucher's number,
      period, journal and date is created and the entries are built. The
      entries returned always balance. */
  method PrepareMoves(db: Database, voucherId: VoucherId, findPeriod: (CompanyId, Date) -> PeriodId)
    returns (r: Result<Prepared>)
    requires voucherId in db.vouchers
    modifies db`moves
    ensures var v := db.vouchers[voucherId];
      PaySum(v.payLines) != LineSum(v.lines) ==> r == Err(PartialPay) && db.moves == old(db.moves)
    ensures var v := db.vouchers[voucherId];
      var moveId := |old(db.moves)|;
      var period := findPeriod(PeriodCompany, v.date);
      PaySum(v.payLines) == LineSum(v.lines) ==>
        db.moves == old(db.moves) + [Move(v.number, period, v.journal, v.date, Draft)] &&
        r == if v.lines == [] then Err(LineMoveIdsUnbound)
             else Ok(Prepared(Entries(v, moveId, period), MoveLineIds(v.lines), voucherId, moveId))
    ensures r.Ok? ==> TotalDebit(r.value.newMoves) == TotalCredit(r.value.newMoves)
  {
    var amount := AmountTotal([voucherId], db.vouchers);
    var amountPay := PayAmount([voucherId], db.vouchers);
    RunningTotalsSingle(voucherId, db.vouchers);
    var v := db.vouchers[voucherId];
    if amount[voucherId] != amountPay[voucherId] {
      return Err(PartialPay);
    }
    var period := findPeriod(PeriodCompany, v.date);
    var moveId := db.CreateMove(Move(v.number, period, v.journal, v.date, Draft));
    var newMoves, lineMoveIds := BuildEntries(v, moveId, period);
    Balanced(v, moveId, period);
    if lineMoveIds.None? {
      return Err(LineMoveIdsUnbound);
    }
    r := Ok(Prepared(newMoves, lineMoveIds.value, voucherId, moveId));
  }

  /** `create_moves`: creates one line per prepared entry, posts the move,
      reconciles the created lines on reconcilable accounts (in creation
      order) followed by the invoice move lines, and marks the voucher posted,
      changing nothing else on it. */
  method CreateMoves(db: Database, payMoves: seq<MoveLine>, invoiceMoves: seq<MoveLineId>,
                     voucherId: VoucherId, moveId: MoveId)
    requires moveId < |db.moves| && voucherId in db.vouchers
    modifies db
    ensures db.moveLines == old(db.moveLines) + payMoves
    ensures db.moves == old(db.moves)[moveId := old(db.moves)[moveId].(state := Posted)]
    ensures db.reconcilable == old(db.reconcilable)
    ensures db.reconciliations ==
            old(db.reconciliations) + [ReconcilableIds(|old(db.moveLines)|, payMoves, db.reconcilable) + invoiceMoves]
    ensures db.vouchers == old(db.vouchers)[voucherId := old(db.vouchers)[voucherId].(state := Posted)]
  {
    var first := |db.moveLines|;
    var created: seq<MoveLineId> := [];
    var i := 0;
    while i < |payMoves|
      invariant 0 <= i <= |payMoves|
      invariant db.moveLines == old(db.moveLines) + payMoves[..i]
      invariant |created| == i && forall k :: 0 <= k < i ==> created[k] == first + k
      invariant db.moves == old(db.moves) && db.vouchers == old(db.vouchers)
      invariant db.reconciliations == old(db.reconciliations) && db.reconcilable == old(db.reconcilable)
    {
      var id := db.CreateMoveLine(payMoves[i]);
      created := created + [id];
      assert payMoves[..i + 1] == payMoves[..i] + [payMoves[i]];
      i := i + 1;
    }
    assert payMoves[..i] == payMoves;
    db.WriteMoveState(moveId, Posted);
    var toReconcile: seq<MoveLineId> := [];
    var j := 0;
    while j < |created|
      invariant 0 <= j <= |created|
      invariant toReconcile == ReconcilableIds(first, payMoves[..j], db.reconcilable)
    {
      var line := db.moveLines[created[j]];
      assert line == payMoves[j];
      assert payMoves[..j + 1][..j] == payMoves[..j];
      if line.account in db.reconcilable {
        toReconcile := toReconcile + [created[j]];
      }
      j := j + 1;
    }
    ghost var fromCreated := toReconcile;
    var k := 0;
    while k < |invoiceMoves|
      invariant 0 <= k <= |invoiceMoves|
      invariant toReconcile == fromCreated + invoiceMoves[..k]
    {
      toReconcile := toReconcile + [invoiceMoves[k]];
      assert invoiceMoves[..k + 1] == invoiceMoves[..k] + [invoiceMoves[k]];
      k := k + 1;
    }
    assert invoiceMoves[..k] == invoiceMoves;
    db.Reconcile(toReconcile);
    db.WriteVoucher(voucherId, db.vouchers[voucherId].(state := Posted));
  }

  /** `post`: a button, so it receives the selected voucher ids. It posts
      only the first of them and ignores the rest; with no selection it fails
      before writing anything. The first voucher is numbered, then its moves
      are prepared and created. Whatever the outcome the voucher keeps the new
      number, since numbering comes first. On success the entries are those of
      the numbered voucher, so each carries the new number, and they
      balance. */
  method Post(db: Database, ids: seq<VoucherId>, number: string, findPeriod: (CompanyId, Date) -> PeriodId)
    returns (r: Result<bool>)
    requires ids != [] ==> ids[0] in db.vouchers
    modifies db
    ensures r == Err(EmptySelection) <==> ids == []
    ensures ids == [] ==>
      db.vouchers == old(db.vouchers) && db.moves == old(db.moves) && db.moveLines == old(db.moveLines) &&
      db.reconciliations == old(db.reconciliations)
    ensures db.reconcilable == old(db.reconcilable)
    ensures ids != [] ==>
      var v := old(db.vouchers)[ids[0]].(number := Some(number));
      (r == Err(PartialPay) <==> PaySum(v.payLines) != LineSum(v.lines)) &&
      (r == Err(LineMoveIdsUnbound) <==> PaySum(v.payLines) == LineSum(v.lines) && v.lines == []) &&
      (r.Ok? ==> r.value)
    ensures ids != [] ==>
      var v := old(db.vouchers)[ids[0]].(number := Some(number));
      r.Err? ==>
        db.vouchers == old(db.vouchers)[ids[0] := v] &&
        db.moveLines == old(db.moveLines) && db.reconciliations == old(db.reconciliations) &&
        (r.error == PartialPay ==> db.moves == old(db.moves)) &&
        (r.error == LineMoveIdsUnbound ==>
           db.moves == old(db.moves) + [Move(Some(number), findPeriod(PeriodCompany, v.date), v.journal, v.date, Draft)])
    ensures ids != [] ==>
      var v := old(db.vouchers)[ids[0]].(number := Some(number));
      var period := findPeriod(PeriodCompany, v.date);
      var entries := Entries(v, |old(db.moves)|, period);
      r.Ok? ==>
        db.vouchers == old(db.vouchers)[ids[0] := v.(state := Posted)] &&
        db.moves == old(db.moves) + [Move(Some(number), period, v.journal, v.date, Posted)] &&
        db.moveLines == old(db.moveLines) + entries &&
        db.reconciliations == old(db.reconciliations) +
          [ReconcilableIds(|old(db.moveLines)|, entries, db.reconcilable) + MoveLineIds(v.lines)]
    ensures r.Ok? ==>
      var added := db.moveLines[|old(db.moveLines)|..];
      TotalDebit(added) == TotalCredit(added) && forall e :: e in added ==> e.name == Some(number)
  {
    if ids == [] {
      return Err(EmptySelection);
    }
    var voucherId := ids[0];
    SetNumber(db, voucherId, number);
    var params := PrepareMoves(db, voucherId, findPeriod);
    if params.Err? {
      return Err(params.error);
    }
    CreateMoves(db, params.value.newMoves, params.value.invoiceMoves, params.value.voucherId, params.value.moveId);
    ghost var v := db.vouchers[voucherId];
    assert db.moveLines[|old(db.moveLines)|..] == params.value.newMoves;
    forall e | e in params.value.newMoves
      ensures e.name == Some(number)
    {
      var i :| 0 <= i < |params.value.newMoves| && params.value.newMoves[i] == e;
      EntriesAt(old(db.vouchers)[voucherId].(number := Some(number)), params.value.moveId,
                findPeriod(PeriodCompany, v.date), i);
    }
    r := Ok(true);
  }
}
