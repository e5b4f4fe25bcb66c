/**
 * The pin registry: one slot per pin of the test set, holding the external
 * pin id (column 0 of `pinMap`), the mode (column 1) and the value
 * (`pinVal`). This module holds the value-level definitions the `AutoTest`
 * class is proved against: the lookup `getPinIndex` performs, the slot
 * ids `_begin` leaves behind, and the copy of a test vector into the
 * input-mode slots.
 */
module PinRegistry {
  import opened Arduino
  import opened DescriptorTable

  /** The id of a slot that no descriptor record filled. */
  const UNUSED_PIN: uint8 := 255

  /** Column `c` of the interleaved `pinMap` of `n` rows: column 0 holds
    * the pin ids, column 1 the modes. */
  function Column(m: seq<uint8>, n: nat, c: nat): (col: seq<uint8>)
    requires c < 2 && |m| == 2 * n
    ensures |col| == n
    ensures c == 0 ==> forall k :: 0 <= k < n ==> col[k] == m[2 * k]
    ensures c == 1 ==> forall k :: 0 <= k < n ==> col[k] == m[2 * k + 1]
  {
    seq(n, k requires 0 <= k < n => m[2 * k + c])
  }

  /** Storing into row `k`, column `c` (offset `j`) changes that one cell of
    * column `c` and nothing of the other column. */
  lemma ColumnUpdate(m: seq<uint8>, n: nat, k: nat, c: nat, j: nat, x: uint8)
    requires c < 2 && |m| == 2 * n && k < n && j == 2 * k + c
    ensures Column(m[j := x], n, c) == Column(m, n, c)[k := x]
    ensures c == 0 ==> Column(m[j := x], n, 1) == Column(m, n, 1)
    ensures c == 1 ==> Column(m[j := x], n, 0) == Column(m, n, 0)
  {
  }

  /** The cells the constructor allocates for `pinMap` as the source
    * writes it: one per slot. */
  function PinMapCellsAsWritten(n: nat): nat {
    n
  }

  /** The cells `pinMap` needs: two per slot, the id and the mode. */
  function PinMapCells(n: nat): nat {
    2 * n
  }

  /** With one cell per slot, the mode cell of the last slot lies past the
    * allocation as soon as there is a slot at all. */
  lemma PinMapOverrun(n: nat)
    requires 0 < n
    ensures PinMapCellsAsWritten(n) <= 2 * (n - 1) + 1
  {
  }

  /** With two cells per slot, both cells of every slot are allocated. */
  lemma PinMapFits(n: nat, k: nat)
    requires k < n
    ensures 2 * k + 1 < PinMapCells(n)
  {
  }

  /** The slot `getPinIndex` finds for `pin`: the first one whose id is
    * `pin`, or `|ids|` (the first index out of range) when there is none. */
  function SlotOf(ids: seq<uint8>, pin: uint8): (r: nat)
    ensures r <= |ids|
    ensures r < |ids| ==> ids[r] == pin
    ensures forall i :: 0 <= i < r ==> ids[i] != pin
    decreases |ids|
  {
    if ids == [] then 0
    else if ids[0] == pin then 0
    else 1 + SlotOf(ids[1..], pin)
  }

  /** A pin is unknown exactly when no slot carries its id. */
  lemma UnknownPin(ids: seq<uint8>, pin: uint8)
    ensures SlotOf(ids, pin) == |ids| <==> pin !in ids
  {
    if pin in ids {
      var i :| 0 <= i < |ids| && ids[i] == pin;
      assert SlotOf(ids, pin) <= i;
    }
  }

  /** The slot ids after `_begin` on a table of descriptors `ds`: the k-th
    * record's id in slot k, `UNUSED_PIN` in every slot past the table. */
  function SlotIds(ds: seq<Descriptor>, n: nat): (ids: seq<uint8>)
    requires |ds| <= n
    ensures |ids| == n
  {
    seq(n, k requires 0 <= k < n => if k < |ds| then ds[k].id else UNUSED_PIN)
  }

  /** Filling slot `i` with the i-th descriptor's id. */
  lemma SlotIdsStep(ds: seq<Descriptor>, n: nat, i: nat)
    requires |ds| <= n && i < |ds|
    ensures SlotIds(ds[..i + 1], n) == SlotIds(ds[..i], n)[i := ds[i].id]
  {
  }

  /** The k-th descriptor's pin is found in slot k unless an earlier record
    * has the same id: the first record with an id wins. */
  lemma LookupDescribedPin(ds: seq<Descriptor>, n: nat, k: nat)
    requires |ds| <= n && k < |ds|
    requires forall m :: 0 <= m < k ==> ds[m].id != ds[k].id
    ensures SlotOf(SlotIds(ds, n), ds[k].id) == k
  {
    var ids := SlotIds(ds, n);
    assert ids[k] == ds[k].id;
    assert SlotOf(ids, ds[k].id) <= k;
  }

  /** A pin that no record describes is unknown, except `UNUSED_PIN` when
    * some slot was left without a record. */
  lemma LookupUndescribedPin(ds: seq<Descriptor>, n: nat, pin: uint8)
    requires |ds| <= n
    requires forall m :: 0 <= m < |ds| ==> ds[m].id != pin
    ensures pin != UNUSED_PIN || |ds| == n ==> SlotOf(SlotIds(ds, n), pin) == n
    ensures pin == UNUSED_PIN && |ds| < n ==> SlotOf(SlotIds(ds, n), pin) == |ds|
  {
    var ids := SlotIds(ds, n);
    if pin == UNUSED_PIN && |ds| < n {
      assert ids[|ds|] == pin;
    } else {
      UnknownPin(ids, pin);
    }
  }

  /** The number of slots in input mode (INPUT or INPUT_PULLUP). */
  function InputCount(modes: seq<uint8>): (c: nat)
    ensures c <= |modes|
  {
    if modes == [] then 0
    else InputCount(modes[..|modes| - 1]) + (if IsInputMode(modes[|modes| - 1]) then 1 else 0)
  }

  /** Counting over one more slot. */
  lemma InputCountStep(modes: seq<uint8>, i: nat)
    requires i < |modes|
    ensures InputCount(modes[..i + 1]) == InputCount(modes[..i]) + (if IsInputMode(modes[i]) then 1 else 0)
  {
    assert modes[..i + 1][..i] == modes[..i];
  }

  /** Counting over a longer prefix never gives less, and strictly more once
    * an input slot lies between the two ends. */
  lemma {:induction false} InputCountGrows(modes: seq<uint8>, i: nat, j: nat)
    requires i <= j <= |modes|
    ensures InputCount(modes[..i]) <= InputCount(modes[..j])
    ensures i < j && IsInputMode(modes[i]) ==> InputCount(modes[..i]) < InputCount(modes[..j])
    decreases j - i
  {
    if i < j {
      InputCountGrows(modes, i + 1, j);
      InputCountStep(modes, i);
    }
  }

  /** An input slot's number among the input slots is below their count. */
  lemma InputSlotNumber(modes: seq<uint8>, i: nat)
    requires i < |modes| && IsInputMode(modes[i])
    ensures InputCount(modes[..i]) < InputCount(modes)
  {
    InputCountGrows(modes, i, |modes|);
    assert modes[..|modes|] == modes;
  }

  /** The values after a test vector `inputs` is copied into the slots whose
    * mode is `modes`: the i-th slot, if it is an input slot, takes the input
    * numbered by the input slots before it; any other slot keeps its value. */
  function ApplyVector(modes: seq<uint8>, vals: seq<uint16>, inputs: seq<uint16>): (r: seq<uint16>)
    requires |modes| == |vals| && InputCount(modes) <= |inputs|
    ensures |r| == |vals|
  {
    seq(|modes|, i requires 0 <= i < |modes| =>
      if IsInputMode(modes[i]) then InputSlotNumber(modes, i); inputs[InputCount(modes[..i])] else vals[i])
  }

  /** A row without input slots is left as it is. */
  lemma NoInputSlots(modes: seq<uint8>, vals: seq<uint16>, inputs: seq<uint16>)
    requires |modes| == |vals| && forall i :: 0 <= i < |modes| ==> !IsInputMode(modes[i])
    ensures InputCount(modes) == 0
    ensures ApplyVector(modes, vals, inputs) == vals
  {
    NoneCounted(modes);
  }

  /** Counting a row without input slots gives nothing. */
  lemma {:induction false} NoneCounted(modes: seq<uint8>)
    requires forall i :: 0 <= i < |modes| ==> !IsInputMode(modes[i])
    ensures InputCount(modes) == 0
    decreases |modes|
  {
    if modes != [] {
      NoneCounted(modes[..|modes| - 1]);
    }
  }

  /** Every input of the vector that has an input slot for it lands in
    * exactly one slot: the k-th input slot in slot order. */
  lemma {:induction false} KthInputSlot(modes: seq<uint8>, k: nat) returns (i: nat)
    requires k < InputCount(modes)
    ensures i < |modes| && IsInputMode(modes[i]) && InputCount(modes[..i]) == k
    ensures forall i' :: 0 <= i' < |modes| && IsInputMode(modes[i']) && InputCount(modes[..i']) == k ==> i' == i
    decreases |modes|
  {
    var last := |modes| - 1;
    if k == InputCount(modes[..last]) {
      i := last;
    } else {
      i := KthInputSlot(modes[..last], k);
      assert modes[..last][..i] == modes[..i];
    }
    forall i' | 0 <= i' < |modes| && IsInputMode(modes[i']) && InputCount(modes[..i']) == k
      ensures i' == i
    {
      if i' < i {
        InputCountGrows(modes, i', i);
      } else if i < i' {
        InputCountGrows(modes, i, i');
      }
    }
  }
}
