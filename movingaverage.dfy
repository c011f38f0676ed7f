/**
 * The flat (box) moving-average filter: three parallel circular arrays of
 * capacity `iSize` holding the pushed integers, their running box sums and
 * those sums divided by the capacity, plus a fill cursor and an independent
 * read cursor.
 */
module MovingAverageFilter {
  import opened Modular

  /** The three histories of the filter, as values. */
  datatype Box = Box(data: seq<int>, sum: seq<int>, scaled: seq<real>)

  predicate Sized(b: Box, n: int) {
    |b.data| == n && |b.sum| == n && |b.scaled| == n
  }

  /** The slot before `k` on a ring of `n` slots. */
  function Prev(k: int, n: int): int
    requires n > 0
  {
    (k - 1) % n
  }

  function Sum(s: seq<int>): int {
    if |s| == 0 then 0 else Sum(s[..|s| - 1]) + s[|s| - 1]
  }

  /** The state `clean` leaves behind: every slot of every array is zero. */
  function Zeros(n: nat): Box {
    Box(seq(n, _ => 0), seq(n, _ => 0), seq(n, _ => 0.0))
  }

  /**
   * One slot update of `pushData`: the new sum is the previous slot's sum
   * minus the value being overwritten plus the new value, and the scaled
   * slot is that sum divided by the capacity.
   */
  function Write(b: Box, n: int, k: int, value: int): (r: Box)
    requires n > 0 && Sized(b, n) && 0 <= k < n
    ensures Sized(r, n)
  {
    var s := b.sum[Prev(k, n)] - b.data[k] + value;
    Box(b.data[k := value], b.sum[k := s], b.scaled[k := s as real / n as real])
  }

  /** `count` successive writes of `value` at slots `p, p + 1, ...` (mod `n`). */
  function Pushed(b: Box, n: int, p: int, value: int, count: nat): (r: Box)
    requires n > 0 && Sized(b, n)
    ensures Sized(r, n)
  {
    if count == 0 then b
    else Write(Pushed(b, n, p, value, count - 1), n, (p + count - 1) % n, value)
  }

  /** The next write of a run lands on slot `k`, the run's position less 0 or `n`. */
  lemma PushedAt(b: Box, n: int, p: int, value: int, done: nat, k: int, shift: int)
    requires n > 0 && Sized(b, n) && 0 <= k < n && p + done == k + shift && (shift == 0 || shift == n)
    ensures Pushed(b, n, p, value, done + 1) == Write(Pushed(b, n, p, value, done), n, k, value)
  {
    if shift == 0 {
      ModSmall(p + done, n);
    } else {
      ModUnique(p + done, n, 1, k);
    }
  }

  /**
   * Running-sum coherence with fill cursor `p`: the slot before the cursor
   * holds the sum of all stored values, and every scaled slot is its sum
   * divided by the capacity.
   */
  predicate Coherent(b: Box, n: int, p: int)
    requires n > 0 && Sized(b, n)
  {
    b.sum[Prev(p, n)] == Sum(b.data) &&
    forall k :: 0 <= k < n ==> b.scaled[k] == b.sum[k] as real / n as real
  }

  lemma {:induction false} SumUpdate(s: seq<int>, k: int, v: int)
    requires 0 <= k < |s|
    ensures Sum(s[k := v]) == Sum(s) - s[k] + v
  {
    var m := |s| - 1;
    assert s[k := v][..m] == if k == m then s[..m] else s[..m][k := v];
    if k < m {
      SumUpdate(s[..m], k, v);
    }
  }

  lemma {:induction false} SumZeros(n: nat)
    ensures Sum(seq(n, _ => 0)) == 0
  {
    if n > 0 {
      assert seq(n, _ => 0)[..n - 1] == seq(n - 1, _ => 0);
      SumZeros(n - 1);
    }
  }

  /** Slots `p, ..., p + m - 1` (mod `n`) are pairwise distinct for `m <= n`. */
  lemma SlotsDistinct(p: int, i: int, j: int, n: int)
    requires n > 0 && 0 <= i < n && 0 <= j < n && i != j
    ensures (p + i) % n != (p + j) % n
  {
    ModSubStart(p, i, n);
    ModSubStart(p, j, n);
  }

  /** Slot `k` is the `((k - p) % n)`-th slot counted from `p`. */
  lemma SlotIndex(p: int, k: int, n: int)
    requires n > 0 && 0 <= k < n
    ensures (p + (k - p) % n) % n == k
  {
    ModOfSum(k - p, p, n);
    ModSmall(k, n);
  }

  /** The clean state is coherent with the fill cursor at 0. */
  lemma CleanCoherent(n: nat)
    requires n > 0
    ensures Coherent(Zeros(n), n, 0)
  {
    SumZeros(n);
  }

  /**
   * Pushing `count <= n` copies of `value` from cursor `p` writes `value` into
   * exactly the `count` slots starting at `p` (mod `n`) and leaves every other
   * slot of the data history as it was.
   */
  lemma {:induction false} PushedData(b: Box, n: int, p: int, value: int, count: nat)
    requires n > 0 && Sized(b, n) && count <= n
    ensures forall k :: 0 <= k < n ==>
      Pushed(b, n, p, value, count).data[k] == if (k - p) % n < count then value else b.data[k]
  {
    if count > 0 {
      PushedData(b, n, p, value, count - 1);
      var w := (p + count - 1) % n;
      forall k | 0 <= k < n
        ensures Pushed(b, n, p, value, count).data[k] == if (k - p) % n < count then value else b.data[k]
      {
        ModSubStart(p, count - 1, n);
        if (k - p) % n == count - 1 {
          SlotIndex(p, k, n);
        }
      }
    }
  }

  /**
   * The sum written at the `j`-th pushed slot `k` is the sum of the slot
   * before it minus the overwritten value plus `value`; the slot before is
   * read as it stood before this push for the first slot and as freshly
   * written for every later one.
   */
  lemma {:induction false} PushedSum(b: Box, n: int, p: int, value: int, count: nat, j: int)
    requires n > 0 && Sized(b, n) && count <= n && 0 <= j < count
    ensures var r, k := Pushed(b, n, p, value, count), (p + j) % n;
      r.sum[k] == (if j == 0 then b.sum[Prev(k, n)] else r.sum[Prev(k, n)]) - b.data[k] + value
  {
    var r, prev := Pushed(b, n, p, value, count), Pushed(b, n, p, value, count - 1);
    var w, k := (p + count - 1) % n, (p + j) % n;
    ModOfSum(p + j, -1, n);
    assert Prev(k, n) == (p + j - 1) % n;
    if j < count - 1 {
      PushedSum(b, n, p, value, count - 1, j);
      SlotsDistinct(p, j, count - 1, n);
      if j > 0 {
        SlotsDistinct(p, j - 1, count - 1, n);
      }
    } else {
      PushedData(b, n, p, value, count - 1);
      ModSubStart(p, count - 1, n);
      if j > 0 {
        SlotsDistinct(p, j - 1, j, n);
      }
    }
  }

  /**
   * Coherence is preserved by pushing: the slot before the advanced cursor
   * again holds the sum of all stored values, for any number of pushes.
   */
  lemma {:induction false} PushedCoherent(b: Box, n: int, p: int, value: int, count: nat)
    requires n > 0 && Sized(b, n) && Coherent(b, n, p)
    ensures Coherent(Pushed(b, n, p, value, count), n, (p + count) % n)
  {
    ModOfSum(p, 0, n);
    ModOfSum(p, -1, n);
    if count > 0 {
      PushedCoherent(b, n, p, value, count - 1);
      var prev := Pushed(b, n, p, value, count - 1);
      var w := (p + count - 1) % n;
      ModOfSum(p + count - 1, -1, n);
      assert Prev((p + count - 1) % n, n) == Prev(w, n);
      WriteCoherent(prev, n, w, value);
      ModOfSum(p + count, -1, n);
      assert Prev((p + count) % n, n) == w;
    }
  }

  /** One write keeps coherence: the written slot is the one before the next cursor and holds the new sum. */
  lemma WriteCoherent(b: Box, n: int, k: int, value: int)
    requires n > 0 && Sized(b, n) && 0 <= k < n && Coherent(b, n, k)
    ensures var r := Write(b, n, k, value);
      r.sum[k] == Sum(r.data) && forall j :: 0 <= j < n ==> r.scaled[j] == r.sum[j] as real / n as real
  {
    SumUpdate(b.data, k, value);
  }

  /**
   * The flat filter's output: after at least one push from a coherent state,
   * the scaled value at the last written slot is the sum of all `n` stored
   * values divided by `n`.
   */
  lemma PushedAverage(b: Box, n: int, p: int, value: int, count: nat)
    requires n > 0 && Sized(b, n) && Coherent(b, n, p) && count >= 1
    ensures var r := Pushed(b, n, p, value, count);
      r.scaled[Prev((p + count) % n, n)] == Sum(r.data) as real / n as real
  {
    PushedCoherent(b, n, p, value, count);
  }

  class MovingAverage {
    const iSize: int
    const vecData: array<int>
    const vecSum: array<int>
    const vecSumScaled: array<real>
    var ptrFill: int
    var ptrRead: int

    /** The arrays have the capacity and are distinct. */
    ghost predicate Allocated() {
      iSize >= 1 &&
      vecData.Length == iSize && vecSum.Length == iSize && vecSumScaled.Length == iSize &&
      vecData != vecSum
    }

    /** Besides, the fill cursor is a slot and the read cursor at most the capacity. */
    ghost predicate Valid()
      reads this
    {
      Allocated() && 0 <= ptrFill < iSize && 0 <= ptrRead <= iSize
    }

    /** The three arrays, as values. */
    ghost function State(): Box
      reads vecData, vecSum, vecSumScaled
    {
      Box(vecData[..], vecSum[..], vecSumScaled[..])
    }

    /** `init`: allocate the three arrays of capacity `size` and clean them. */
    constructor (size: int)
      requires size >= 1
      ensures Valid() && iSize == size
      ensures fresh(vecData) && fresh(vecSum) && fresh(vecSumScaled)
      ensures State() == Zeros(size) && ptrFill == 0 && ptrRead == 0
    {
      iSize := size;
      vecData := new int[size];
      vecSum := new int[size];
      vecSumScaled := new real[size];
      ptrFill := 0;
      ptrRead := 0;
      new;
      Clean();
    }

    /** `clean`: zero every slot of the three arrays and both cursors. */
    method Clean()
      requires Valid()
      modifies this, vecData, vecSum, vecSumScaled
      ensures Valid() && State() == Zeros(iSize) && ptrFill == 0 && ptrRead == 0
    {
      for i := 0 to iSize
        invariant forall k :: 0 <= k < i ==> vecData[k] == 0 && vecSum[k] == 0 && vecSumScaled[k] == 0.0
      {
        vecData[i] := 0;
        vecSum[i] := 0;
        vecSumScaled[i] := 0.0;
      }
      ptrFill := 0;
      ptrRead := 0;
      assert State() == Zeros(iSize);
    }

    /** The body shared by the loops of `pushData`, for slot `k`. */
    method WriteSlot(k: int, value: int)
      requires Allocated() && 0 <= k < iSize
      modifies vecData, vecSum, vecSumScaled
      ensures State() == Write(old(State()), iSize, k, value)
    {
      var before := if k == 0 then iSize - 1 else k - 1;
      assert before == Prev(k, iSize) by {
        if k == 0 { ModUnique(-1, iSize, -1, iSize - 1); } else { ModSmall(k - 1, iSize); }
      }
      vecSum[k] := vecSum[before] - vecData[k] + value;
      vecData[k] := value;
      vecSumScaled[k] := vecSum[k] as real / iSize as real;
    }

    /**
     * `pushData(value, length)`: a length below 1 changes nothing; otherwise
     * `length` (at most the capacity) copies of `value` are written from the
     * fill cursor on, wrapping once at the end of the arrays.
     */
    method PushData(value: int, length: int)
      requires Valid() && length <= iSize
      modifies this, vecData, vecSum, vecSumScaled
      ensures Valid() && ptrRead == old(ptrRead)
      ensures length < 1 ==> State() == old(State()) && ptrFill == old(ptrFill)
      ensures length >= 1 ==>
        State() == Pushed(old(State()), iSize, old(ptrFill), value, length) &&
        ptrFill == (old(ptrFill) + length) % iSize
    {
      if length < 1 {
        return;
      }
      ghost var s0, p0 := State(), ptrFill;
      ghost var done: nat := 0;
      var len := length;

      // Slot 0 reads its predecessor from the far end of the arrays.
      if ptrFill == 0 {
        ModSmall(0, iSize);
        WriteSlot(0, value);
        len := len - 1;
        ptrFill := ptrFill + 1;
        done := 1;
      }

      var target := ptrFill + len;
      if target <= iSize {
        done := FillTo(target, value, s0, p0, done, 0);
        if ptrFill == iSize {
          ptrFill := 0;
          ModUnique(iSize, iSize, 1, 0);
        } else {
          ModSmall(ptrFill, iSize);
        }
      } else {
        done := FillAround(target - iSize, value, s0, p0, done);
        ModOnce(p0 + done, iSize);
      }
    }

    /**
     * The overflowing branch of `pushData`: fill to the end of the arrays,
     * then slot 0, then from slot 1 up to `target`.
     */
    method FillAround(target: int, value: int, ghost s0: Box, ghost p0: int, ghost done0: nat)
      returns (ghost done: nat)
      requires Allocated() && 0 < ptrFill < iSize && 0 < target < iSize
      requires Sized(s0, iSize) && State() == Pushed(s0, iSize, p0, value, done0)
      requires p0 + done0 == ptrFill
      modifies this`ptrFill, vecData, vecSum, vecSumScaled
      ensures done == done0 + iSize - old(ptrFill) + target
      ensures ptrFill == target && p0 + done == target + iSize
      ensures State() == Pushed(s0, iSize, p0, value, done)
    {
      done := FillTo(iSize, value, s0, p0, done0, 0);
      assert p0 + done == iSize;
      PushedAt(s0, iSize, p0, value, done, 0, iSize);
      WriteSlot(0, value);
      done := done + 1;
      ptrFill := 1;
      done := FillTo(target, value, s0, p0, done, iSize);
      assert p0 + done == target + iSize;
    }

    /**
     * One of the copy loops of `pushData`: writes `value` from the fill
     * cursor up to `target`. The ghost parameters say how many of the pushed
     * copies are already written (`done`) and that the cursor stands `shift`
     * slots behind the unwrapped position `p0 + done`.
     */
    method FillTo(target: int, value: int, ghost s0: Box, ghost p0: int, ghost done0: nat, ghost shift: int)
      returns (ghost done: nat)
      requires Allocated() && 0 <= ptrFill <= target <= iSize
      requires Sized(s0, iSize) && State() == Pushed(s0, iSize, p0, value, done0)
      requires p0 + done0 == ptrFill + shift && (shift == 0 || shift == iSize)
      modifies this`ptrFill, vecData, vecSum, vecSumScaled
      ensures ptrFill == target && done == done0 + (target - old(ptrFill))
      ensures State() == Pushed(s0, iSize, p0, value, done)
    {
      done := done0;
      while ptrFill < target
        invariant old(ptrFill) <= ptrFill <= target && done == done0 + (ptrFill - old(ptrFill))
        invariant State() == Pushed(s0, iSize, p0, value, done)
      {
        PushedAt(s0, iSize, p0, value, done, ptrFill, shift);
        WriteSlot(ptrFill, value);
        ptrFill := ptrFill + 1;
        done := done + 1;
      }
    }

    /**
     * `popData`: wrap the read cursor from `iSize` to 0, return the scaled
     * value under it and advance it.
     */
    method PopData() returns (r: real)
      requires Valid()
      modifies this`ptrRead
      ensures Valid()
      ensures r == vecSumScaled[if old(ptrRead) == iSize then 0 else old(ptrRead)]
      ensures ptrRead == (if old(ptrRead) == iSize then 0 else old(ptrRead)) + 1
    {
      if ptrRead == iSize {
        ptrRead := 0;
      }
      r := vecSumScaled[ptrRead];
      ptrRead := ptrRead + 1;
    }

    /**
     * `readData(offset)`: the scaled value `offset` slots from the read
     * cursor, wrapped in either direction; nothing changes.
     */
    method ReadData(offset: int) returns (r: real)
      requires Valid()
      ensures r == vecSumScaled[(ptrRead + offset) % iSize]
    {
      var position := ptrRead + offset;
      while position >= iSize
        invariant position % iSize == (ptrRead + offset) % iSize
        decreases position
      {
        ModAddMultiple(position - iSize, 1, iSize);
        position := position - iSize;
      }
      while position < 0
        invariant position < iSize
        invariant position % iSize == (ptrRead + offset) % iSize
        decreases -position
      {
        ModAddMultiple(position, 1, iSize);
        position := position + iSize;
      }
      ModSmall(position, iSize);
      r := vecSumScaled[position];
    }

    /** `resetPointers`: both cursors back to 0, the arrays untouched. */
    method ResetPointers()
      requires Valid()
      modifies this`ptrFill, this`ptrRead
      ensures Valid() && ptrFill == 0 && ptrRead == 0
    {
      ptrFill := 0;
      ptrRead := 0;
    }
  }
}
