// Attention mask, loss mask and position ids of left-to-right models
// (nemo/utils/megatron_utils.py), document by document.

module LtorMasks {
  import opened Lists

  datatype Error = TypeError  // assigning into a mask that was never built

  // ----- Documents -----

  /** The place after the last EOD token before k: where the document of token k starts. */
  function DocStart(row: seq<int>, eod: int, k: nat): nat
    requires k <= |row|
  {
    if k == 0 then 0
    else if row[k - 1] == eod then k
    else DocStart(row, eod, k - 1)
  }

  lemma {:induction false} DocStartIsLastEod(row: seq<int>, eod: int, k: nat)
    requires k <= |row|
    ensures DocStart(row, eod, k) <= k
    ensures DocStart(row, eod, k) > 0 ==> row[DocStart(row, eod, k) - 1] == eod
    ensures forall i :: DocStart(row, eod, k) <= i < k ==> row[i] != eod
  {
    if k > 0 && row[k - 1] != eod { DocStartIsLastEod(row, eod, k - 1); }
  }

  /** Row r may attend to column c. */
  ghost predicate Visible(row: seq<int>, eod: int, reset: bool, r: nat, c: nat)
    requires r < |row|
  {
    c <= r && (reset ==> forall i :: c <= i < r ==> row[i] != eod)
  }

  /** No EOD in between is the same as a common document. */
  lemma {:induction false} VisibleIsSameDocument(row: seq<int>, eod: int, r: nat, c: nat)
    requires r < |row| && c <= r
    ensures Visible(row, eod, true, r, c) <==> DocStart(row, eod, c) == DocStart(row, eod, r)
    ensures Visible(row, eod, true, r, c) <==> DocStart(row, eod, r) <= c
  {
    DocStartIsLastEod(row, eod, r);
    DocStartIsLastEod(row, eod, c);
  }

  /** With both resets on, row r sees exactly its position plus one columns. */
  lemma {:induction false} VisibleCount(row: seq<int>, eod: int, r: nat)
    requires r < |row|
    ensures |set c: nat | c < |row| && Visible(row, eod, true, r, c)| == r - DocStart(row, eod, r) + 1
  {
    var d := DocStart(row, eod, r);
    DocStartIsLastEod(row, eod, r);
    forall c: nat | c < |row|
      ensures Visible(row, eod, true, r, c) <==> d <= c <= r
    {
      if c <= r { VisibleIsSameDocument(row, eod, r, c); }
    }
    assert (set c: nat | c < |row| && Visible(row, eod, true, r, c)) == Interval(d, r + 1);
  }

  function Interval(lo: nat, hi: nat): (s: set<nat>)
    requires lo <= hi
    ensures forall c :: c in s <==> lo <= c < hi
    ensures |s| == hi - lo
  {
    if lo == hi then {} else Interval(lo, hi - 1) + {hi - 1}
  }

  // ----- The program -----

  /** The places of the EOD tokens, in increasing order. */
  function EodIndex(row: seq<int>, eod: int): seq<nat> {
    if row == [] then []
    else
      var n := |row| - 1;
      if row[n] == eod then EodIndex(row[..n], eod) + [n] else EodIndex(row[..n], eod)
  }

  lemma {:induction false} EodIndexIsSorted(row: seq<int>, eod: int)
    ensures forall t :: 0 <= t < |EodIndex(row, eod)| ==> EodIndex(row, eod)[t] < |row|
    ensures forall t, u :: 0 <= t < u < |EodIndex(row, eod)| ==> EodIndex(row, eod)[t] < EodIndex(row, eod)[u]
    ensures forall i: nat :: i in EodIndex(row, eod) <==> i < |row| && row[i] == eod
  {
    if row != [] {
      EodIndexIsSorted(row[..|row| - 1], eod);
    }
  }

  /** The start of the document of place k, as far as the given EOD places tell. */
  function StartAmong(eods: seq<nat>, k: nat): nat {
    if eods == [] then 0
    else if eods[|eods| - 1] < k then eods[|eods| - 1] + 1
    else StartAmong(eods[..|eods| - 1], k)
  }

  /** Column c is cut off from row r by one of the given EOD places. */
  ghost predicate Cut(eods: seq<nat>, r: nat, c: nat) {
    exists t :: 0 <= t < |eods| && c <= eods[t] < r
  }

  lemma {:induction false} StartAmongAll(row: seq<int>, eod: int, k: nat)
    requires k < |row|
    ensures StartAmong(EodIndex(row, eod), k) == DocStart(row, eod, k)
  {
    EodIndexIsSorted(row, eod);
    LastStart(row, eod, EodIndex(row, eod), k);
  }

  /** StartAmong is the place after the greatest EOD place below k. */
  lemma {:induction false} LastStart(row: seq<int>, eod: int, eods: seq<nat>, k: nat)
    requires k < |row|
    requires forall t, u :: 0 <= t < u < |eods| ==> eods[t] < eods[u]
    requires forall i: nat | i < k :: i in eods <==> row[i] == eod
    ensures StartAmong(eods, k) == DocStart(row, eod, k)
  {
    DocStartIsLastEod(row, eod, k);
    var d := DocStart(row, eod, k);
    if eods != [] {
      var last := |eods| - 1;
      if eods[last] < k {
        assert eods[last] in eods && row[eods[last]] == eod;
        if d > 0 { assert d - 1 in eods; }
      } else {
        assert eods == eods[..last] + [eods[last]];
        LastStart(row, eod, eods[..last], k);
      }
    }
  }

  lemma {:induction false} CutAll(row: seq<int>, eod: int, r: nat, c: nat)
    requires r < |row| && c <= r
    ensures Cut(EodIndex(row, eod), r, c) <==> !Visible(row, eod, true, r, c)
  {
    EodIndexIsSorted(row, eod);
    var eods := EodIndex(row, eod);
    forall i: nat | c <= i < r && row[i] == eod
      ensures Cut(eods, r, c)
    {
      assert i in eods;
    }
    forall t | 0 <= t < |eods|
      ensures row[eods[t]] == eod
    {
      assert eods[t] in eods;
    }
  }

  /** The running index prev_index: one past the EOD place before the j-th. */
  function Prev(eods: seq<nat>, j: nat): nat
    requires j <= |eods|
  {
    if j == 0 then 0 else eods[j - 1] + 1
  }

  /** Subtracting i + 1 - prev_index beyond the j-th EOD place i restarts the count there. */
  lemma {:induction false} StartNext(eods: seq<nat>, j: nat, k: nat)
    requires j < |eods| && forall t, u :: 0 <= t < u < |eods| ==> eods[t] < eods[u]
    ensures StartAmong(eods[..j + 1], k)
         == StartAmong(eods[..j], k) + if eods[j] < k then eods[j] + 1 - Prev(eods, j) else 0
  {
    assert eods[..j + 1][..j] == eods[..j];
  }

  function Row(data: array2<int>, b: nat): seq<int>
    requires b < data.Length0
    reads data
  {
    seq(data.Length1, i requires 0 <= i < data.Length1 reads data => data[b, i])
  }

  /** attention_mask[b, i+1:, :i+1] = 0 */
  method ZeroBlock(mask: array3<real>, b: nat, i: nat)
    requires b < mask.Length0 && i < mask.Length1 == mask.Length2
    modifies mask
    ensures forall x, r, c :: 0 <= x < mask.Length0 && 0 <= r < mask.Length1 && 0 <= c < mask.Length2 ==>
      mask[x, r, c] == if x == b && c <= i < r then 0.0 else old(mask[x, r, c])
  {
    forall r, c | i + 1 <= r < mask.Length1 && 0 <= c < i + 1 {
      mask[b, r, c] := 0.0;
    }
  }

  /** position_ids[b, i+1:] -= delta */
  method ShiftRow(positions: array2<int>, b: nat, i: nat, delta: int)
    requires b < positions.Length0
    modifies positions
    ensures forall x, k :: 0 <= x < positions.Length0 && 0 <= k < positions.Length1 ==>
      positions[x, k] == if x == b && i < k then old(positions[x, k]) - delta else old(positions[x, k])
  {
    forall k | i + 1 <= k < positions.Length1 {
      positions[b, k] := positions[b, k] - delta;
    }
  }

  /** The loop over the EOD places of one row, with prev_index; false when the mask was not built. */
  method ResetRow(data: array2<int>, eod: int, resetPositions: bool, resetMask: bool,
                  mask: array3?<real>, positions: array2<int>, b: nat) returns (ok: bool)
    requires b < data.Length0 == positions.Length0 && data.Length1 == positions.Length1
    requires data != positions
    requires resetMask && mask != null ==> mask.Length0 == data.Length0
    requires mask != null ==> mask.Length1 == mask.Length2 == data.Length1
    requires forall k :: 0 <= k < data.Length1 ==> positions[b, k] == k
    modifies mask, positions
    ensures ok <==> !(resetMask && mask == null && EodIndex(Row(data, b), eod) != [])
    ensures forall x, k :: 0 <= x < positions.Length0 && 0 <= k < positions.Length1 ==>
      positions[x, k] == if ok && x == b && resetPositions then k - StartAmong(EodIndex(Row(data, b), eod), k)
                         else old(positions[x, k])
    ensures mask != null ==>
      forall x, r, c :: 0 <= x < mask.Length0 && 0 <= r < mask.Length1 && 0 <= c < mask.Length2 ==>
        mask[x, r, c] == if x == b && resetMask && Cut(EodIndex(Row(data, b), eod), r, c) then 0.0
                         else old(mask[x, r, c])
  {
    var eodIndex := EodIndex(Row(data, b), eod);
    EodIndexIsSorted(Row(data, b), eod);
    var prevIndex := 0;
    for j := 0 to |eodIndex|
      invariant Row(data, b) == old(Row(data, b))
      invariant resetPositions ==> prevIndex == Prev(eodIndex, j)
      invariant resetMask && j > 0 ==> mask != null
      invariant forall x, k :: 0 <= x < positions.Length0 && 0 <= k < positions.Length1 ==>
        positions[x, k] == if x == b && resetPositions then k - StartAmong(eodIndex[..j], k) else old(positions[x, k])
      invariant mask != null ==>
        forall x, r, c :: 0 <= x < mask.Length0 && 0 <= r < mask.Length1 && 0 <= c < mask.Length2 ==>
          mask[x, r, c] == if x == b && resetMask && Cut(eodIndex[..j], r, c) then 0.0 else old(mask[x, r, c])
    {
      var i := eodIndex[j];
      forall r: nat, c: nat
        ensures Cut(eodIndex[..j + 1], r, c) <==> Cut(eodIndex[..j], r, c) || c <= i < r
      {
      }
      forall k: nat
        ensures StartAmong(eodIndex[..j + 1], k)
             == StartAmong(eodIndex[..j], k) + if i < k then i + 1 - Prev(eodIndex, j) else 0
      {
        StartNext(eodIndex, j, k);
      }
      if resetMask {
        if mask == null {
          return false;
        }
        ZeroBlock(mask, b, i);
      }
      if resetPositions {
        ShiftRow(positions, b, i, i + 1 - prevIndex);
        prevIndex := i + 1;
      }
    }
    assert eodIndex[..|eodIndex|] == eodIndex;
    return true;
  }

  /** Loss mask and position ids before any reset. */
  method LossAndPositions(data: array2<int>, eod: int, eodMaskLoss: bool)
    returns (lossMask: array2<real>, positionIds: array2<int>)
    ensures fresh(lossMask) && lossMask.Length0 == data.Length0 && lossMask.Length1 == data.Length1
    ensures fresh(positionIds) && positionIds.Length0 == data.Length0 && positionIds.Length1 == data.Length1
    ensures forall b, k :: 0 <= b < data.Length0 && 0 <= k < data.Length1 ==>
      && lossMask[b, k] == (if eodMaskLoss && data[b, k] == eod then 0.0 else 1.0)
      && positionIds[b, k] == k
  {
    lossMask := new real[data.Length0, data.Length1]((_, _) => 1.0);
    if eodMaskLoss {
      forall b, k | 0 <= b < data.Length0 && 0 <= k < data.Length1 && data[b, k] == eod {
        lossMask[b, k] := 0.0;
      }
    }
    positionIds := new int[data.Length0, data.Length1]((_, k) => k);
  }

  /** tril(ones(n, size, size)) */
  method Tril(n: nat, size: nat) returns (mask: array3<real>)
    ensures fresh(mask) && mask.Length0 == n && mask.Length1 == mask.Length2 == size
    ensures forall x, r, c :: 0 <= x < n && 0 <= r < size && 0 <= c < size ==>
      mask[x, r, c] == if c <= r then 1.0 else 0.0
  {
    mask := new real[n, size, size]((_, r, c) => if c <= r then 1.0 else 0.0);
  }

  /** The loop over the batch; the mask has a row per batch entry when it is to be reset. */
  method ResetBatch(data: array2<int>, eod: int, resetPositions: bool, resetMask: bool,
                    mask: array3?<real>, positions: array2<int>) returns (ok: bool)
    requires data.Length0 == positions.Length0 && data.Length1 == positions.Length1
    requires data != positions
    requires resetMask && mask != null ==> mask.Length0 == data.Length0
    requires mask != null ==> mask.Length1 == mask.Length2 == data.Length1
    requires forall b, k :: 0 <= b < data.Length0 && 0 <= k < data.Length1 ==> positions[b, k] == k
    modifies mask, positions
    ensures ok <==> !(resetMask && mask == null
                      && exists b :: 0 <= b < data.Length0 && EodIndex(Row(data, b), eod) != [])
    ensures ok ==> forall b, k :: 0 <= b < data.Length0 && 0 <= k < data.Length1 ==>
      positions[b, k] == if resetPositions then k - StartAmong(EodIndex(Row(data, b), eod), k) else k
    ensures ok && mask != null ==>
      forall x, r, c :: 0 <= x < mask.Length0 && 0 <= r < mask.Length1 && 0 <= c < mask.Length2 ==>
        mask[x, r, c] == if resetMask && Cut(EodIndex(Row(data, x), eod), r, c) then 0.0 else old(mask[x, r, c])
  {
    ok := true;
    for b := 0 to data.Length0
      invariant forall x :: 0 <= x < data.Length0 ==> Row(data, x) == old(Row(data, x))
      invariant resetMask && mask == null ==> forall x :: 0 <= x < b ==> EodIndex(Row(data, x), eod) == []
      invariant forall x, k :: 0 <= x < data.Length0 && 0 <= k < data.Length1 ==>
        positions[x, k] == if resetPositions && x < b then k - StartAmong(EodIndex(Row(data, x), eod), k) else k
      invariant mask != null ==>
        forall x, r, c :: 0 <= x < mask.Length0 && 0 <= r < mask.Length1 && 0 <= c < mask.Length2 ==>
          mask[x, r, c] == if resetMask && x < b && Cut(EodIndex(Row(data, x), eod), r, c) then 0.0
                           else old(mask[x, r, c])
    {
      ok := ResetRow(data, eod, resetPositions, resetMask, mask, positions, b);
      if !ok {
        return;
      }
    }
  }

  /** mask < 0.5: true where attention is forbidden. */
  method ToBinary(mask: array3<real>) returns (binary: array3<bool>)
    ensures fresh(binary) && binary.Length0 == mask.Length0 && binary.Length1 == mask.Length1
    ensures binary.Length2 == mask.Length2
    ensures forall x, r, c :: 0 <= x < mask.Length0 && 0 <= r < mask.Length1 && 0 <= c < mask.Length2 ==>
      (binary[x, r, c] <==> mask[x, r, c] < 0.5)
  {
    binary := new bool[mask.Length0, mask.Length1, mask.Length2](
      (x, r, c) requires 0 <= x < mask.Length0 && 0 <= r < mask.Length1 && 0 <= c < mask.Length2 reads mask =>
        mask[x, r, c] < 0.5);
  }

  /** Everything but the conversion to a binary mask, in terms of the EOD places of each row. */
  method MasksByEod(data: array2<int>, eod: int, resetPositionIds: bool, resetAttentionMask: bool,
                    eodMaskLoss: bool, computeAttentionMask: bool)
    returns (ok: bool, mask: array3?<real>, lossMask: array2<real>, positionIds: array2<int>)
    ensures ok <==> !(resetAttentionMask && !computeAttentionMask
                      && exists b :: 0 <= b < data.Length0 && EodIndex(Row(data, b), eod) != [])
    ensures fresh(lossMask) && lossMask.Length0 == data.Length0 && lossMask.Length1 == data.Length1
    ensures fresh(positionIds) && positionIds.Length0 == data.Length0 && positionIds.Length1 == data.Length1
    ensures forall b, k :: 0 <= b < data.Length0 && 0 <= k < data.Length1 ==>
      lossMask[b, k] == if eodMaskLoss && data[b, k] == eod then 0.0 else 1.0
    ensures ok ==> forall b, k :: 0 <= b < data.Length0 && 0 <= k < data.Length1 ==>
      positionIds[b, k] == if resetPositionIds then k - StartAmong(EodIndex(Row(data, b), eod), k) else k
    ensures mask != null <==> computeAttentionMask
    ensures mask != null ==>
      && fresh(mask) && mask.Length0 == (if resetAttentionMask then data.Length0 else 1)
      && mask.Length1 == mask.Length2 == data.Length1
    ensures ok && mask != null ==>
      forall b, i, c :: 0 <= b < mask.Length0 && 0 <= i < mask.Length1 && 0 <= c < mask.Length2 ==>
        mask[b, i, c] == if c > i || (resetAttentionMask && Cut(EodIndex(Row(data, b), eod), i, c)) then 0.0 else 1.0
  {
    mask := null;
    if computeAttentionMask {
      mask := Tril(if resetAttentionMask then data.Length0 else 1, data.Length1);
    }
    lossMask, positionIds := LossAndPositions(data, eod, eodMaskLoss);
    ok := true;
    if resetPositionIds || resetAttentionMask {
      ok := ResetBatch(data, eod, resetPositionIds, resetAttentionMask, mask, positionIds);
    }
  }

  /**
   * The error is the assignment into a mask that compute_attention_mask switched off, on the
   * first EOD token. Otherwise masks and positions are those of the documents of each row.
   */
  method GetLtorMasksAndPositionIds(data: array2<int>, eod: int, resetPositionIds: bool, resetAttentionMask: bool,
                                    eodMaskLoss: bool, computeAttentionMask: bool)
    returns (r: Option<Error>, attentionMask: array3?<bool>, lossMask: array2<real>, positionIds: array2<int>)
    ensures r.Some? <==> resetAttentionMask && !computeAttentionMask
                         && exists b, k :: 0 <= b < data.Length0 && 0 <= k < data.Length1 && data[b, k] == eod
    ensures positionIds.Length0 == lossMask.Length0 == data.Length0
    ensures positionIds.Length1 == lossMask.Length1 == data.Length1
    ensures forall b, k :: 0 <= b < data.Length0 && 0 <= k < data.Length1 ==>
      lossMask[b, k] == if eodMaskLoss && data[b, k] == eod then 0.0 else 1.0
    ensures r == None ==> forall b, k :: 0 <= b < data.Length0 && 0 <= k < data.Length1 ==>
      positionIds[b, k] == if resetPositionIds then k - DocStart(Row(data, b), eod, k) else k
    ensures r == None ==> (attentionMask != null <==> computeAttentionMask)
    ensures r == None && attentionMask != null ==>
      && attentionMask.Length0 == (if resetAttentionMask then data.Length0 else 1)
      && attentionMask.Length1 == attentionMask.Length2 == data.Length1
      && forall b, i, c :: (0 <= b < attentionMask.Length0 && b < data.Length0
                            && 0 <= i < data.Length1 && 0 <= c < data.Length1) ==>
           (attentionMask[b, i, c] <==> !Visible(Row(data, b), eod, resetAttentionMask, i, c))
  {
    var ok, mask;
    ok, mask, lossMask, positionIds :=
      MasksByEod(data, eod, resetPositionIds, resetAttentionMask, eodMaskLoss, computeAttentionMask);
    ghost var rows := seq(data.Length0, b requires 0 <= b < data.Length0 reads data => Row(data, b));
    DocumentsOf(rows, eod, data.Length1);
    assert forall b, k :: 0 <= b < data.Length0 && 0 <= k < data.Length1 ==> data[b, k] == rows[b][k];
    if !ok {
      return Some(TypeError), null, lossMask, positionIds;
    }
    attentionMask := null;
    if mask != null {
      attentionMask := ToBinary(mask);
    }
    return None, attentionMask, lossMask, positionIds;
  }

  /** What the EOD places of a row say about its documents. */
  lemma {:induction false} DocumentsOf(rows: seq<seq<int>>, eod: int, length: nat)
    requires forall b :: 0 <= b < |rows| ==> |rows[b]| == length
    ensures (exists b :: 0 <= b < |rows| && EodIndex(rows[b], eod) != [])
       <==> exists b, k :: 0 <= b < |rows| && 0 <= k < length && rows[b][k] == eod
    ensures forall b, k :: 0 <= b < |rows| && 0 <= k < length ==>
      StartAmong(EodIndex(rows[b], eod), k) == DocStart(rows[b], eod, k)
    ensures forall b, r, c :: 0 <= b < |rows| && 0 <= c <= r < length ==>
      (Cut(EodIndex(rows[b], eod), r, c) <==> !Visible(rows[b], eod, true, r, c))
  {
    forall b | 0 <= b < |rows|
      ensures EodIndex(rows[b], eod) != [] <==> exists k :: 0 <= k < length && rows[b][k] == eod
    {
      EodIndexIsSorted(rows[b], eod);
      var eods := EodIndex(rows[b], eod);
      if eods != [] { assert eods[0] in eods; }
    }
    forall b, k | 0 <= b < |rows| && 0 <= k < length
      ensures StartAmong(EodIndex(rows[b], eod), k) == DocStart(rows[b], eod, k)
    {
      StartAmongAll(rows[b], eod, k);
    }
    forall b, r, c | 0 <= b < |rows| && 0 <= c <= r < length
      ensures Cut(EodIndex(rows[b], eod), r, c) <==> !Visible(rows[b], eod, true, r, c)
    {
      CutAll(rows[b], eod, r, c);
    }
  }
}
