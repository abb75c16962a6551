/** The two computed amounts of a voucher: `amount` (what the pay modes bring
    in or pay out) and `amount_pay` (what the voucher lines settle). Both are
    computed for a batch of voucher ids and returned as a map from id to
    amount, as the ORM's function fields are. */
module Totals {
  import opened VoucherModel

  /** Sum of the line amounts of the vouchers `ids` in order, counting a
      voucher once per occurrence: the running total `pay_amount` keeps. */
  function RunningLineSum(ids: seq<VoucherId>, store: map<VoucherId, Voucher>): int
    requires forall id :: id in ids ==> id in store
  {
    if ids == [] then 0
    else RunningLineSum(ids[..|ids| - 1], store) + LineSum(store[ids[|ids| - 1]].lines)
  }

  /** `amount_total`: every voucher gets the sum of its pay lines' amounts,
      zero when it has none. */
  method AmountTotal(ids: seq<VoucherId>, store: map<VoucherId, Voucher>)
    returns (res: map<VoucherId, int>)
    requires forall id :: id in ids ==> id in store
    ensures res.Keys == set id | id in ids
    ensures forall id :: id in ids ==> res[id] == PaySum(store[id].payLines)
  {
    res := map[];
    var i := 0;
    while i < |ids|
      invariant 0 <= i <= |ids|
      invariant res.Keys == set id | id in ids[..i]
      invariant forall id :: id in ids[..i] ==> res[id] == PaySum(store[id].payLines)
    {
      var v := store[ids[i]];
      res := res[ids[i] := 0];
      if v.payLines != [] {
        var j := 0;
        while j < |v.payLines|
          invariant 0 <= j <= |v.payLines|
          invariant res.Keys == (set id | id in ids[..i]) + {ids[i]}
          invariant res[ids[i]] == PaySum(v.payLines[..j])
          invariant forall id :: id in ids[..i] && id != ids[i] ==> res[id] == PaySum(store[id].payLines)
        {
          res := res[ids[i] := res[ids[i]] + v.payLines[j].payAmount];
          assert v.payLines[..j + 1][..j] == v.payLines[..j];
          j := j + 1;
        }
        assert v.payLines[..j] == v.payLines;
      }
      assert ids[..i + 1] == ids[..i] + [ids[i]];
      i := i + 1;
    }
    assert ids[..i] == ids;
  }

  /** What `pay_amount` returns for the batch `ids`: each voucher in turn is
      mapped to the running line sum up to and including it, a later
      occurrence of an id overwriting an earlier one. */
  function RunningTotals(ids: seq<VoucherId>, store: map<VoucherId, Voucher>): map<VoucherId, int>
    requires forall id :: id in ids ==> id in store
  {
    if ids == [] then map[]
    else RunningTotals(ids[..|ids| - 1], store)[ids[|ids| - 1] := RunningLineSum(ids, store)]
  }

  /** `pay_amount` as written: the accumulator `total` is set to zero once,
      before the loop over vouchers, so each voucher receives the running sum
      of the line amounts of every voucher up to and including it. */
  method PayAmount(ids: seq<VoucherId>, store: map<VoucherId, Voucher>)
    returns (res: map<VoucherId, int>)
    requires forall id :: id in ids ==> id in store
    ensures res == RunningTotals(ids, store)
  {
    res := map[];
    var total := 0;
    var i := 0;
    while i < |ids|
      invariant 0 <= i <= |ids|
      invariant res == RunningTotals(ids[..i], store)
      invariant total == RunningLineSum(ids[..i], store)
    {
      var v := store[ids[i]];
      if v.lines != [] {
        var j := 0;
        ghost var before := total;
        while j < |v.lines|
          invariant 0 <= j <= |v.lines|
          invariant total == before + LineSum(v.lines[..j])
        {
          total := total + v.lines[j].amountOriginal;
          assert v.lines[..j + 1][..j] == v.lines[..j];
          j := j + 1;
        }
        assert v.lines[..j] == v.lines;
      }
      res := res[ids[i] := total];
      assert ids[..i + 1][..i] == ids[..i];
      i := i + 1;
    }
    assert ids[..i] == ids;
  }

  /** The batch's ids are exactly the keys of the result. */
  lemma {:induction false} RunningTotalsKeys(ids: seq<VoucherId>, store: map<VoucherId, Voucher>)
    requires forall id :: id in ids ==> id in store
    ensures RunningTotals(ids, store).Keys == set id | id in ids
    decreases |ids|
  {
    if ids != [] {
      var n := |ids| - 1;
      RunningTotalsKeys(ids[..n], store);
      assert ids == ids[..n] + [ids[n]];
    }
  }

  /** An id whose last occurrence in the batch is at position k gets the
      running sum of the line amounts of the vouchers at positions 0..k. */
  lemma {:induction false} RunningTotalsAt(ids: seq<VoucherId>, store: map<VoucherId, Voucher>, k: nat)
    requires forall id :: id in ids ==> id in store
    requires k < |ids| && ids[k] !in ids[k + 1..]
    ensures ids[k] in RunningTotals(ids, store)
    ensures RunningTotals(ids, store)[ids[k]] == RunningLineSum(ids[..k + 1], store)
    decreases |ids|
  {
    var n := |ids| - 1;
    if k < n {
      assert ids[n] in ids[k + 1..];
      assert ids[..n][k + 1..] == ids[k + 1..n];
      RunningTotalsAt(ids[..n], store, k);
      assert ids[..n][..k + 1] == ids[..k + 1];
    } else {
      assert ids[..k + 1] == ids;
    }
  }

  /** A batch of one voucher gets exactly that voucher's line sum. */
  lemma RunningTotalsSingle(id: VoucherId, store: map<VoucherId, Voucher>)
    requires id in store
    ensures RunningTotals([id], store) == map[id := LineSum(store[id].lines)]
  {
    assert [id][..0] == [];
    assert RunningLineSum([id], store) == LineSum(store[id].lines);
    assert RunningTotals([id], store) == map[][id := LineSum(store[id].lines)];
  }

  /** The carried-over accumulator: two vouchers with one line of 100.00
      each, computed in one batch, get 100.00 and 200.00, although the second
      voucher settles only 100.00. */
  lemma RunningTotalCarriesOver(a: VoucherId, b: VoucherId, va: Voucher, vb: Voucher)
    requires a != b
    requires va.lines == [VoucherLine(None, 1, 10000, 10000, Dr, 7)]
    requires vb.lines == [VoucherLine(None, 2, 10000, 10000, Dr, 8)]
    ensures var store := map[a := va, b := vb];
      a in RunningTotals([a, b], store) && b in RunningTotals([a, b], store) &&
      RunningTotals([a, b], store)[a] == 10000 && RunningTotals([a, b], store)[b] == 20000 &&
      LineSum(store[b].lines) == 10000
  {
    var store := map[a := va, b := vb];
    assert [a, b][..1] == [a];
    assert [a][..0] == [];
    assert LineSum(va.lines) == 10000 by { assert va.lines[..0] == []; }
    assert LineSum(vb.lines) == 10000 by { assert vb.lines[..0] == []; }
    assert RunningLineSum([a], store) == 10000;
    assert RunningLineSum([a, b], store) == RunningLineSum([a], store) + LineSum(vb.lines);
    assert RunningTotals([a], store) == map[a := 10000];
    assert RunningTotals([a, b], store) == RunningTotals([a], store)[b := RunningLineSum([a, b], store)];
  }
}
