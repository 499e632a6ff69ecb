/** The packed answer to an online request: bit i of the answer, counted from the left of
    each byte, is the status of the i-th peer asked for. */
module OnlineBitmap {

  /** `0x01 << bit_idx` for bit_idx = 7 - i % 8. */
  function Mask(i: nat): bv8 {
    (0x01 as bv8) << (7 - i % 8)
  }

  predicate BitAt(states: seq<bv8>, i: nat)
    requires i / 8 < |states|
  {
    states[i / 8] & Mask(i) != 0
  }

  /** What a client reads out of the answer for `n` peers. */
  function Decode(states: seq<bv8>, n: nat): seq<bool>
    requires n <= 8 * |states|
  {
    seq(n, i requires 0 <= i < n => BitAt(states, i))
  }

  function Width(n: nat): nat {
    (n + 7) / 8
  }

  lemma MaskTable(i: nat)
    ensures Mask(i) == [0x80, 0x40, 0x20, 0x10, 0x08, 0x04, 0x02, 0x01][i % 8]
  {
  }

  /** Setting the bit of one peer sets it and touches no other. */
  lemma SetOne(b: bv8, i: nat, k: nat)
    ensures ((b | Mask(i)) & Mask(k)) != 0 <==> i % 8 == k % 8 || (b & Mask(k)) != 0
  {
    MaskTable(i);
    MaskTable(k);
  }

  /** The answer carries `status` and nothing else: right width, right bits, zero padding. */
  ghost predicate Packs(states: seq<bv8>, status: seq<bool>) {
    && |states| == Width(|status|)
    && (forall i :: 0 <= i < |status| ==> (BitAt(states, i) <==> status[i]))
    && (forall i :: |status| <= i < 8 * |states| ==> !BitAt(states, i))
  }

  lemma DecodePacked(states: seq<bv8>, status: seq<bool>)
    requires Packs(states, status)
    ensures Decode(states, |status|) == status
  {
  }

  lemma ByteFromBits(a: bv8, b: bv8)
    requires (a & 0x80 != 0 <==> b & 0x80 != 0) && (a & 0x40 != 0 <==> b & 0x40 != 0)
    requires (a & 0x20 != 0 <==> b & 0x20 != 0) && (a & 0x10 != 0 <==> b & 0x10 != 0)
    requires (a & 0x08 != 0 <==> b & 0x08 != 0) && (a & 0x04 != 0 <==> b & 0x04 != 0)
    requires (a & 0x02 != 0 <==> b & 0x02 != 0) && (a & 0x01 != 0 <==> b & 0x01 != 0)
    ensures a == b
  {
  }

  lemma SameBit(a: seq<bv8>, b: seq<bv8>, status: seq<bool>, j: nat, k: nat)
    requires Packs(a, status) && Packs(b, status) && j < |a| && k < 8
    ensures ((a[j] & Mask(k)) != 0) == ((b[j] & Mask(k)) != 0)
  {
    var i := 8 * j + k;
    assert i / 8 == j && i % 8 == k;
    MaskTable(k);
    MaskTable(i);
    assert BitAt(a, i) <==> BitAt(b, i);
  }

  lemma SameByte(a: seq<bv8>, b: seq<bv8>, status: seq<bool>, j: nat)
    requires Packs(a, status) && Packs(b, status) && j < |a|
    ensures a[j] == b[j]
  {
    SameBit(a, b, status, j, 0); SameBit(a, b, status, j, 1); SameBit(a, b, status, j, 2); SameBit(a, b, status, j, 3);
    SameBit(a, b, status, j, 4); SameBit(a, b, status, j, 5); SameBit(a, b, status, j, 6); SameBit(a, b, status, j, 7);
    MaskTable(0); MaskTable(1); MaskTable(2); MaskTable(3);
    MaskTable(4); MaskTable(5); MaskTable(6); MaskTable(7);
    ByteFromBits(a[j], b[j]);
  }

  /** There is only one answer for a list of statuses. */
  lemma PackingIsUnique(a: seq<bv8>, b: seq<bv8>, status: seq<bool>)
    requires Packs(a, status) && Packs(b, status)
    ensures a == b
  {
    forall j | 0 <= j < |a|
      ensures a[j] == b[j]
    {
      SameByte(a, b, status, j);
    }
  }

  /** The value a peer adds to its byte. */
  function Worth(status: seq<bool>, i: nat, value: bv8): bv8 {
    if i < |status| && status[i] then value else 0
  }

  lemma JoinBits(a: bv8)
    ensures a == (a & 0x80) | (a & 0x40) | (a & 0x20) | (a & 0x10) | (a & 0x08) | (a & 0x04) | (a & 0x02) | (a & 0x01)
  {
  }

  lemma BitWorth(states: seq<bv8>, status: seq<bool>, j: nat, k: nat)
    requires Packs(states, status) && j < |states| && k < 8
    ensures states[j] & Mask(k) == Worth(status, 8 * j + k, Mask(k))
  {
    var i := 8 * j + k;
    assert i / 8 == j && i % 8 == k && Mask(i) == Mask(k);
    assert BitAt(states, i) <==> i < |status| && status[i];
    MaskTable(k);
  }

  /** Each byte spelled out: the first of its eight peers is worth 0x80, the last 0x01. */
  lemma ByteSpelledOut(states: seq<bv8>, status: seq<bool>, j: nat)
    requires Packs(states, status) && j < |states|
    ensures states[j] == Worth(status, 8 * j, 0x80) | Worth(status, 8 * j + 1, 0x40) | Worth(status, 8 * j + 2, 0x20)
                         | Worth(status, 8 * j + 3, 0x10) | Worth(status, 8 * j + 4, 0x08) | Worth(status, 8 * j + 5, 0x04)
                         | Worth(status, 8 * j + 6, 0x02) | Worth(status, 8 * j + 7, 0x01)
  {
    BitWorth(states, status, j, 0); BitWorth(states, status, j, 1); BitWorth(states, status, j, 2); BitWorth(states, status, j, 3);
    BitWorth(states, status, j, 4); BitWorth(states, status, j, 5); BitWorth(states, status, j, 6); BitWorth(states, status, j, 7);
    MaskTable(0); MaskTable(1); MaskTable(2); MaskTable(3);
    MaskTable(4); MaskTable(5); MaskTable(6); MaskTable(7);
    JoinBits(states[j]);
  }

  /** As few bytes as will do. */
  lemma WidthIsLeast(n: nat)
    ensures n <= 8 * Width(n) < n + 8
  {
  }

  /** The loop's progress: the first `done` statuses are in place, all later bits still zero. */
  ghost predicate PackedUpTo(states: seq<bv8>, status: seq<bool>, done: nat) {
    && done <= |status| && |states| == Width(|status|)
    && (forall i :: 0 <= i < done ==> (BitAt(states, i) <==> status[i]))
    && (forall i :: done <= i < 8 * |states| ==> !BitAt(states, i))
  }

  lemma PackOne(states: seq<bv8>, status: seq<bool>, done: nat)
    requires PackedUpTo(states, status, done) && done < |status|
    ensures !status[done] ==> PackedUpTo(states, status, done + 1)
    ensures status[done] ==>
              PackedUpTo(states[done / 8 := states[done / 8] | Mask(done)], status, done + 1)
  {
    var states' := states[done / 8 := states[done / 8] | Mask(done)];
    forall k: nat | k / 8 < |states|
      ensures BitAt(states', k) <==> k == done || BitAt(states, k)
    {
      SetOne(states[done / 8], done, k);
    }
  }
}
