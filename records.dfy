/** The record store the voucher module works on, standing in for the ORM's
    tables: vouchers by id, ledger moves and move lines (a row's identifier is
    its position, so creating a row appends it), every call made to the
    reconciliation service, in order, and the set of accounts flagged
    `reconcile`. */
module Records {
  import opened VoucherModel

  class Database {
    var vouchers: map<VoucherId, Voucher>
    var moves: seq<Move>
    var moveLines: seq<MoveLine>
    var reconciliations: seq<seq<MoveLineId>>
    var reconcilable: set<AccountId>

    constructor (vouchers: map<VoucherId, Voucher>, moves: seq<Move>, moveLines: seq<MoveLine>,
                 reconcilable: set<AccountId>)
      ensures this.vouchers == vouchers && this.moves == moves && this.moveLines == moveLines
      ensures this.reconcilable == reconcilable && reconciliations == []
    {
      this.vouchers := vouchers;
      this.moves := moves;
      this.moveLines := moveLines;
      this.reconcilable := reconcilable;
      reconciliations := [];
    }

    /** `account.move` create: the new move gets the next identifier. */
    method CreateMove(m: Move) returns (id: MoveId)
      modifies this`moves
      ensures id == |old(moves)| && moves == old(moves) + [m]
    {
      id := |moves|;
      moves := moves + [m];
    }

    /** `account.move` write of the `state` field. */
    method WriteMoveState(id: MoveId, s: State)
      requires id < |moves|
      modifies this`moves
      ensures moves == old(moves)[id := old(moves)[id].(state := s)]
    {
      moves := moves[id := moves[id].(state := s)];
    }

    /** `account.move.line` create: the new line gets the next identifier. */
    method CreateMoveLine(ml: MoveLine) returns (id: MoveLineId)
      modifies this`moveLines
      ensures id == |old(moveLines)| && moveLines == old(moveLines) + [ml]
    {
      id := |moveLines|;
      moveLines := moveLines + [ml];
    }

    /** `account.move.line` reconcile, kept as a recorded effect. */
    method Reconcile(ids: seq<MoveLineId>)
      modifies this`reconciliations
      ensures reconciliations == old(reconciliations) + [ids]
    {
      reconciliations := reconciliations + [ids];
    }

    /** `account.voucher` write: replaces the stored voucher. */
    method WriteVoucher(id: VoucherId, v: Voucher)
      requires id in vouchers
      modifies this`vouchers
      ensures vouchers == old(vouchers)[id := v]
    {
      vouchers := vouchers[id := v];
    }
  }
}
