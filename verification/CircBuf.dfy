/** The ring buffer that finds its slots with a bit mask, and the rounding that provides a size for it. */
module CircBuffer {
  import opened Arithmetic
  import opened Bits

  const WORD: nat := 0x1_0000_0000_0000_0000

  /* ---- rounding up to a power of two ---- */

  ghost predicate IsPow2(n: nat) { exists k :: n == Pow2(k) }

  /** One of bits i .. i + w - 1 is set. */
  ghost predicate OneNear(n: nat, i: nat, w: nat) { exists j: nat :: i <= j < i + w && Bit(n, j) }

  /** Bit i of v says whether n has a one at i or less than w places above. */
  ghost predicate Smeared(v: nat, n: nat, w: nat) {
    forall i: nat :: Bit(v, i) <==> OneNear(n, i, w)
  }

  lemma NearTwice(n: nat, i: nat, w: nat)
    ensures OneNear(n, i, 2 * w) <==> OneNear(n, i, w) || OneNear(n, i + w, w)
  {
    if j: nat :| i <= j < i + 2 * w && Bit(n, j) {
      assert if j < i + w then OneNear(n, i, w) else OneNear(n, i + w, w);
    }
  }

  lemma SmearMore(v: nat, n: nat, w: nat)
    requires Smeared(v, n, w)
    ensures Smeared(Or(v, Shr(v, w)), n, 2 * w)
  {
    forall i: nat ensures Bit(Or(v, Shr(v, w)), i) <==> OneNear(n, i, 2 * w) {
      OrBit(v, Shr(v, w), i);
      ShrBit(v, w, i);
      NearTwice(n, i, w);
    }
  }

  /** No 32 zeros in a row below the leading one. */
  ghost predicate NoLongGap(n: nat) {
    forall i: nat :: i < Length(n) ==> OneNear(n, i, 32)
  }

  /** r is the least power of two that is no less than v. */
  ghost predicate LeastPow2(r: nat, v: nat) {
    IsPow2(r) && v <= r && forall k :: v <= Pow2(k) ==> r <= Pow2(k)
  }

  method UpperPowerOfTwo(x: nat) returns (v: nat)
    requires x < WORD
    ensures 1 <= x <= Pow2(63) ==> (LeastPow2(v, x) <==> NoLongGap(x - 1))
    ensures 1 <= x <= Pow2(32) ==> LeastPow2(v, x)
    ensures x == 0 ==> v == 0
  {
    hide Or, Shr, Smeared, LeastPow2, NoLongGap, Pow2;
    v := if x == 0 then WORD - 1 else x - 1;
    ghost var n := v;
    NotSmeared(n);
    SmearMore(v, n, 1);
    v := Or(v, Shr(v, 1));
    SmearMore(v, n, 2);
    v := Or(v, Shr(v, 2));
    SmearMore(v, n, 4);
    v := Or(v, Shr(v, 4));
    SmearMore(v, n, 8);
    v := Or(v, Shr(v, 8));
    SmearMore(v, n, 16);
    v := Or(v, Shr(v, 16));
    RoundedIff(v, n);
    if x == 0 {
      ZeroWraps(v);
    }
    v := (v + 1) % WORD;
  }

  lemma NotSmeared(n: nat)
    ensures Smeared(n, n, 1)
  {
    forall i: nat ensures Bit(n, i) <==> OneNear(n, i, 1) {
    }
  }

  lemma ShortHasNoGap(n: nat)
    requires n < Pow2(32)
    ensures NoLongGap(n)
  {
    LengthBelow(n, 32);
    LengthBits(n, 0);
    forall i: nat | i < Length(n) ensures OneNear(n, i, 32) {
      assert Bit(n, Length(n) - 1);
    }
  }

  ghost predicate LowOnes(v: nat, k: nat) { forall i: nat :: i < k ==> Bit(v, i) }

  lemma SmearedLength(v: nat, n: nat)
    requires Smeared(v, n, 32)
    ensures forall i: nat :: i >= Length(n) ==> !Bit(v, i)
    ensures LowOnes(v, Length(n)) <==> NoLongGap(n)
  {
    forall i: nat | i >= Length(n) ensures !Bit(v, i) {
      NothingAbove(n, i);
    }
    if NoLongGap(n) {
      forall i: nat | i < Length(n) ensures Bit(v, i) {
        assert OneNear(n, i, 32);
      }
    }
    if LowOnes(v, Length(n)) {
      forall i: nat | i < Length(n) ensures OneNear(n, i, 32) {
        assert Bit(v, i);
      }
    }
  }

  lemma NothingAbove(n: nat, i: nat)
    requires i >= Length(n)
    ensures !OneNear(n, i, 32)
  {
    if j: nat :| i <= j < i + 32 && Bit(n, j) {
      LengthBits(n, j);
    }
  }

  /** The low bits are all ones exactly if the number is one less than a power of two. */
  lemma AllOnes(v: nat, k: nat)
    requires forall i: nat :: i >= k ==> !Bit(v, i)
    ensures LowOnes(v, k) <==> v == Pow2(k) - 1
  {
    var ones := Pow2(k) - 1;
    forall i: nat ensures Bit(ones, i) <==> i < k {
      OnesBits(k, i);
    }
    if LowOnes(v, k) {
      SameBits(v, ones);
    }
  }

  /** Rounding gives the least power of two exactly if no long gap stops the smearing. */
  lemma RoundedIff(v: nat, n: nat)
    requires Smeared(v, n, 32)
    ensures n < Pow2(63) ==> (LeastPow2((v + 1) % WORD, n + 1) <==> NoLongGap(n))
    ensures n < Pow2(32) ==> LeastPow2((v + 1) % WORD, n + 1)
  {
    hide Smeared, NoLongGap, LeastPow2, Bit, Length;
    if n < Pow2(63) {
      LengthBelow(n, 63);
      Pow2Grows(Length(n), 64);
      RoundedShort(v, n);
    }
    if n < Pow2(32) {
      ShortHasNoGap(n);
      Pow2Grows(32, 63);
    }
  }

  lemma RoundedShort(v: nat, n: nat)
    requires Smeared(v, n, 32) && 2 * Pow2(Length(n)) <= Pow2(64)
    ensures LeastPow2((v + 1) % WORD, n + 1) <==> NoLongGap(n)
  {
    hide Smeared, NoLongGap, Bit, Length, Pow2;
    var k := Length(n);
    SmearedLength(v, n);
    AllOnes(v, k);
    BitsBelow(v, k);
    LeastIs(n);
    WordSize();
    LeastUnique(v + 1, Pow2(k), n + 1);
  }

  lemma LeastUnique(r: nat, p: nat, v: nat)
    requires LeastPow2(p, v)
    ensures LeastPow2(r, v) <==> r == p
  {
    if LeastPow2(r, v) {
      var j :| p == Pow2(j);
      var k :| r == Pow2(k);
    }
  }

  lemma WordSize()
    ensures Pow2(64) == WORD
  {
    assert Pow2(16) == 0x1_0000 by {
      assert Pow2(8) == 0x100;
    }
    Pow2Sum(16, 16);
    Pow2Sum(32, 32);
  }

  lemma {:induction false} Pow2Sum(j: nat, k: nat)
    ensures Pow2(j + k) == Pow2(j) * Pow2(k)
  {
    if k > 0 {
      Pow2Sum(j, k - 1);
      assert Pow2(j) * (2 * Pow2(k - 1)) == 2 * (Pow2(j) * Pow2(k - 1));
    }
  }

  lemma BitsBelow(v: nat, k: nat)
    requires forall i: nat :: i >= k ==> !Bit(v, i)
    ensures v < Pow2(k)
  {
    LengthBits(v, 0);
    LengthBounds(v);
    if Length(v) < k {
      Pow2Grows(Length(v), k);
    }
  }

  /** The least power of two above n - that is, no less than n + 1 - is given by the length of n. */
  lemma LeastIs(n: nat)
    ensures LeastPow2(Pow2(Length(n)), n + 1)
  {
    LengthBounds(n);
    forall k | n + 1 <= Pow2(k) ensures Pow2(Length(n)) <= Pow2(k) {
      LengthBelow(n, k);
      if Length(n) < k {
        Pow2Grows(Length(n), k);
      }
    }
  }

  /** The smallest input for which the rounding fails is 2^32 + 1. */
  lemma RoundingFails(v: nat)
    requires Smeared(v, Pow2(32), 32)
    ensures !LeastPow2((v + 1) % WORD, Pow2(32) + 1)
  {
    hide LeastPow2, Smeared, Pow2;
    GapAbove32();
    Pow2Grows(32, 63);
    RoundedIff(v, Pow2(32));
  }

  lemma GapAbove32()
    ensures !NoLongGap(Pow2(32)) && Pow2(32) > 0
  {
    assert !OneNear(Pow2(32), 0, 32) by {
      if j: nat :| 0 <= j < 0 + 32 && Bit(Pow2(32), j) {
        OneBitAt(32, j);
      }
    }
  }

  /** Zero becomes the largest word, and wraps back to zero. */
  lemma ZeroWraps(v: nat)
    requires Smeared(v, WORD - 1, 32)
    ensures (v + 1) % WORD == 0
  {
    var n: nat := WORD - 1;
    hide Smeared, Pow2, Length, Bit;
    WordSize();
    OnesLength(64);
    SmearedLength(v, n);
    OnesNoGap(64);
    AllOnes(v, 64);
  }

  lemma OnesLength(k: nat)
    ensures Length(Pow2(k) - 1) == k
  {
    var ones := Pow2(k) - 1;
    LengthBelow(ones, k);
    if k > 0 {
      OnesBits(k, k - 1);
      LengthBits(ones, k - 1);
    }
  }

  lemma OnesNoGap(k: nat)
    ensures NoLongGap(Pow2(k) - 1)
  {
    var ones := Pow2(k) - 1;
    OnesLength(k);
    forall i: nat | i < Length(ones) ensures OneNear(ones, i, 32) {
      OnesBits(k, i);
    }
  }

  lemma {:induction false} OneBitAt(k: nat, i: nat)
    ensures Bit(Pow2(k), i) <==> i == k
  {
    if k == 0 {
      if i > 0 {
        ZeroBits(i - 1);
      }
    } else if i > 0 {
      OneBitAt(k - 1, i - 1);
    }
  }

  /* ---- the ring ---- */

  function Slot(size: nat, i: nat): nat
    requires size > 0
  {
    And(i, size - 1)
  }

  lemma SlotIsRemainder(size: nat, i: nat)
    requires IsPow2(size)
    ensures Slot(size, i) == i % size
  {
    var k :| size == Pow2(k);
    MaskIsRemainder(i, k);
  }

  /** `count` elements from `front` on, round the ring. */
  function Window<T>(d: seq<T>, front: nat, count: nat): seq<T>
    requires |d| > 0
  {
    seq(count, i requires 0 <= i < count => d[Cell(front, i, |d|)])
  }

  function Cell(front: nat, i: nat, size: nat): (k: nat)
    requires size > 0
    ensures k < size
  {
    (front + i) % size
  }

  lemma WindowAdd<T>(d: seq<T>, front: nat, count: nat, t: T)
    requires count < |d|
    ensures Window(d[Cell(front, count, |d|) := t], front, count + 1) == Window(d, front, count) + [t]
  {
    var end := Cell(front, count, |d|);
    forall i | 0 <= i < count ensures Cell(front, i, |d|) != end {
      WindowDistinct(front, |d|, i, count);
    }
    hide Cell;
  }

  lemma WindowRemove<T>(d: seq<T>, front: nat, count: nat)
    requires 0 < count && front < |d|
    ensures Window(d, front, count) == [d[front]] + Window(d, Cell(front, 1, |d|), count - 1)
  {
    var rest := Window(d, Cell(front, 1, |d|), count - 1);
    forall i | 0 < i < count ensures Window(d, front, count)[i] == rest[i - 1] {
      RemainderStep(front + 1, i - 1, |d|);
    }
    DivisionUnique(front, |d|, 0, front);
  }

  class CircBuf<T(0)> {
    const size: nat
    const data: array<T>
    var front: nat
    var count: int

    /** A ring of a power-of-two size. */
    ghost predicate Whole()
      reads this
    {
      IsPow2(size) && data.Length == size && front < size
    }

    /** Neither overfilled nor underflowed. */
    ghost predicate Valid()
      reads this
    {
      Whole() && 0 <= count <= size
    }

    /** The waiting elements, oldest first. */
    ghost function Contents(): seq<T>
      requires Valid()
      reads this, data
    {
      Window(data[..], front, count)
    }

    /** The constructor call of the code: sizes it rejects give no ring. */
    static method Create(sz: int) returns (b: CircBuf?<T>)
      ensures b == null <==> sz <= 0
      ensures b != null ==> fresh(b) && b.size == sz && b.count == 0 && (IsPow2(b.size) ==> b.Valid() && b.Contents() == [])
    {
      if sz <= 0 {
        return null;
      }
      b := new CircBuf(sz);
    }

    constructor (sz: nat)
      requires sz > 0
      ensures size == sz && front == 0 && count == 0 && data.Length == sz && fresh(data)
      ensures IsPow2(sz) ==> Valid() && Contents() == []
    {
      size := sz;
      data := new T[sz];
      front := 0;
      count := 0;
    }

    function Empty(): bool
      reads this
    {
      count == 0
    }

    function Full(): bool
      reads this
    {
      count == size
    }

    function GetCurrentIndex(): nat
      requires size > 0 && front + count >= 0
      reads this
    {
      And(front + count, size - 1)
    }

    /** Always reports success, which is true exactly if there is room: a full ring loses its oldest element. */
    method Add(t: T) returns (ok: bool)
      requires Whole() && count >= 0
      modifies this`count, data
      ensures ok && Whole() && count == old(count) + 1
      ensures old(GetCurrentIndex()) < size && data[..] == old(data[..])[old(GetCurrentIndex()) := t]
      ensures old(Valid()) ==> ((ok <==> Valid() && Contents() == old(Contents()) + [t]) <==> !old(Full()))
      ensures old(Full()) ==> data[front] == t && !Valid()
    {
      SlotIsRemainder(size, front + count);
      if Full() {
        TurnOver(front, size);
      } else if count < size {
        WindowAdd(data[..], front, count, t);
      }
      var end := And(front + count, size - 1);
      data[end] := t;
      count := count + 1;
      return true;
    }

    /** Hands out the oldest element exactly if there is one; of an empty ring it hands out a stale slot. */
    method Remove() returns (t: T)
      requires Whole()
      modifies this`front, this`count
      ensures Whole() && count == old(count) - 1 && front == old(front + 1) % size && t == data[old(front)]
      ensures old(Valid()) ==> ((Valid() && old(Contents()) == [t] + Contents()) <==> !old(Empty()))
      ensures old(Empty()) ==> !Valid()
    {
      SlotIsRemainder(size, front + 1);
      if count > 0 {
        WindowRemove(data[..], front, count);
      }
      t := data[front];
      front := And(front + 1, size - 1);
      count := count - 1;
    }
  }

  lemma TurnOver(front: nat, size: nat)
    requires front < size
    ensures (front + size) % size == front
  {
    RemainderOfSum(front, 1, size);
    DivisionUnique(front, size, 0, front);
  }

  lemma RemainderStep(x: nat, i: nat, d: nat)
    requires d > 0
    ensures (x % d + i) % d == (x + i) % d
  {
    RemainderOfSum(x % d + i, x / d, d);
    assert x == (x / d) * d + x % d;
  }

  /** Within one turn of the ring no slot comes twice. */
  lemma WindowDistinct(front: nat, size: nat, i: nat, j: nat)
    requires size > 0 && i < j < i + size
    ensures (front + i) % size != (front + j) % size
  {
    if (front + i) % size == (front + j) % size {
      var p, q := (front + i) / size, (front + j) / size;
      assert (q - p) * size == j - i;
      ProductBounds(q - p, size);
    }
  }

  /* ---- other sizes ---- */

  /** The slots after adding the values to an empty ring, whatever was in them. */
  function Filled(data: seq<int>, values: seq<int>): seq<int>
    requires |data| > 0
    ensures |Filled(data, values)| == |data|
    decreases |values|
  {
    if values == [] then data
    else
      var n := |values| - 1;
      AndBelow(n, |data| - 1);
      Filled(data, values[..n])[Slot(|data|, n) := values[n]]
  }

  lemma {:induction false} AndBelow(x: nat, y: nat)
    ensures And(x, y) <= x && And(x, y) <= y
  {
    if x > 0 && y > 0 {
      AndBelow(x / 2, y / 2);
    }
  }

  /** The element to be removed first is the one added first, as long as the ring is not overfilled. */
  ghost predicate FirstComesFirst(size: nat)
    requires size > 0
  {
    forall data: seq<int>, values: seq<int> :: |data| == size && 0 < |values| <= size ==> Filled(data, values)[0] == values[0]
  }

  lemma {:induction false} FilledKeepsFirst(data: seq<int>, values: seq<int>)
    requires IsPow2(|data|) && 0 < |values| <= |data|
    ensures Filled(data, values)[0] == values[0]
    decreases |values|
  {
    var n := |values| - 1;
    hide IsPow2, Slot;
    SlotIsRemainder(|data|, n);
    DivisionUnique(n, |data|, 0, n);
    if n > 0 {
      FilledKeepsFirst(data, values[..n]);
    }
  }

  /** A mask with a hole sends a later element to the first slot. */
  lemma HoleOverwrites(size: nat) returns (n: nat)
    requires size > 0 && !IsPow2(size)
    ensures 0 < n < size && Slot(size, n) == 0
  {
    var m := size - 1;
    var k := Length(m);
    forall i: nat | i >= k ensures !Bit(m, i) {
      LengthBits(m, i);
    }
    AllOnes(m, k);
    assert size != Pow2(k);
    var b: nat :| b < k && !Bit(m, b);
    n := Pow2(b);
    LengthBounds(m);
    LengthBits(m, 0);
    assert b < k - 1;
    Pow2Grows(b, k - 1);
    forall i: nat ensures Bit(And(n, m), i) <==> Bit(0, i) {
      AndBit(n, m, i);
      OneBitAt(b, i);
      ZeroBits(i);
    }
    SameBits(And(n, m), 0);
  }

  /** The ring is first in, first out exactly for sizes that are powers of two. */
  lemma FifoIffPow2(size: nat)
    requires size > 0
    ensures FirstComesFirst(size) <==> IsPow2(size)
  {
    if IsPow2(size) {
      forall data: seq<int>, values: seq<int> | |data| == size && 0 < |values| <= size
        ensures Filled(data, values)[0] == values[0]
      {
        FilledKeepsFirst(data, values);
      }
    } else {
      var n := HoleOverwrites(size);
      var data := seq(size, _ => 0);
      var values := seq(n + 1, i => i);
      assert Filled(data, values)[0] == n;
      assert values[0] == 0;
    }
  }
}
