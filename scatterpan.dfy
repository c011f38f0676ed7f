/**
 * The write-side delay line shared by the nine- and five-source panners.
 * Every source sample, times the source's attenuation, is added into an
 * output ring buffer `delay` slots after the buffer pointer; the output
 * block is then read from the buffer pointer and each slot read is cleared.
 * The two files differ only in the number of sources, the buffer size and
 * the spacing clamp, so one class is instantiated by both.
 */
module ScatterPan {
  import opened Modular
  import opened Geometry

  // ---------------------------------------------------------------------
  // Where a block lands in a ring buffer of `n` slots
  // ---------------------------------------------------------------------

  /** The slot that sample `f` of a block written from `start` lands in. */
  function Slot(start: int, f: int, n: int): int
    requires n > 0
  {
    (start + f) % n
  }

  /** How far slot `j` lies after `start`, going round the ring. */
  function Offset(start: int, n: int, j: int): int
    requires n > 0
  {
    (j - start) % n
  }

  lemma OffsetOfSlot(start: int, f: int, n: int)
    requires n > 0 && 0 <= f < n
    ensures Offset(start, n, Slot(start, f, n)) == f
  {
    ModSubStart(start, f, n);
  }

  lemma SlotOfOffset(start: int, n: int, j: int)
    requires n > 0 && 0 <= j < n
    ensures Slot(start, Offset(start, n, j), n) == j
  {
    ModOfSum(j - start, start, n);
    ModSmall(j, n);
  }

  /** What a block `xs` written from `start` adds to slot `j`. */
  function Contribution(start: int, xs: seq<real>, n: int, j: int): real
    requires n > 0
  {
    var f := Offset(start, n, j);
    if f < |xs| then xs[f] else 0.0
  }

  /** The buffer after the block `xs` has been added from slot `start` on, wrapping round. */
  function Landed(buf: seq<real>, start: int, xs: seq<real>): (r: seq<real>)
    requires |buf| > 0
    ensures |r| == |buf|
  {
    seq(|buf|, j requires 0 <= j < |buf| => buf[j] + Contribution(start, xs, |buf|, j))
  }

  /** Sample `f` of the block is added to slot `start + f`, taken round the ring. */
  lemma LandsAt(buf: seq<real>, start: int, xs: seq<real>, f: int)
    requires |buf| > 0 && |xs| <= |buf| && 0 <= f < |xs|
    ensures Landed(buf, start, xs)[Slot(start, f, |buf|)] == buf[Slot(start, f, |buf|)] + xs[f]
  {
    OffsetOfSlot(start, f, |buf|);
  }

  /** A slot no sample of the block lands in keeps its value. */
  lemma LandsNowhereElse(buf: seq<real>, start: int, xs: seq<real>, j: int)
    requires |buf| > 0 && 0 <= j < |buf|
    requires forall f :: 0 <= f < |xs| ==> Slot(start, f, |buf|) != j
    ensures Landed(buf, start, xs)[j] == buf[j]
  {
    var f := Offset(start, |buf|, j);
    if f < |xs| {
      SlotOfOffset(start, |buf|, j);
      assert false;
    }
  }

  /** A source's block: the first `nframes` input samples times its attenuation. */
  function Gains(row: seq<real>, gain: real, nframes: int): (xs: seq<real>)
    requires 0 <= nframes <= |row|
    ensures |xs| == nframes
  {
    seq(nframes, f requires 0 <= f < nframes => row[f] * gain)
  }

  // ---------------------------------------------------------------------
  // The one or two passes of the scatter-add
  // ---------------------------------------------------------------------

  /** One pass: `size` samples from `inputStart` on, written from `bufferStart` on. */
  datatype Pass = Pass(bufferStart: int, inputStart: int, size: int)

  /**
   * The passes for a block of `nframes` samples written `delay` slots after
   * the buffer pointer `ptr`: a single pass from the wrapped slot when the
   * offset is already past the end, two passes when the block crosses the
   * end, one pass otherwise.
   */
  function Plan(ptr: int, delay: int, n: int, nframes: int): (plan: seq<Pass>)
  {
    var offset := ptr + delay;
    if offset > n then [Pass(offset - n, 0, nframes)]
    else if offset + nframes > n then [Pass(offset, 0, n - offset), Pass(0, n - offset, nframes - (n - offset))]
    else [Pass(offset, 0, nframes)]
  }

  /** A pass that stays inside a buffer of `n` slots and a block of `m` samples. */
  predicate Fits(pass: Pass, n: int, m: int) {
    pass.size >= 0 && 0 <= pass.bufferStart && pass.bufferStart + pass.size <= n &&
    0 <= pass.inputStart && pass.inputStart + pass.size <= m
  }

  /**
   * Every pass writes inside the buffer; the passes take the block in order,
   * without gaps, and their sizes add up to `nframes`.
   */
  lemma PlanFits(ptr: int, delay: int, n: int, nframes: int)
    requires 0 <= ptr <= n && 0 <= delay && 0 <= nframes && delay + nframes <= n
    ensures var plan := Plan(ptr, delay, n, nframes);
      (|plan| == 1 || |plan| == 2) &&
      (forall p :: 0 <= p < |plan| ==> Fits(plan[p], n, nframes)) &&
      plan[0].inputStart == 0 &&
      (|plan| == 1 ==> plan[0].size == nframes) &&
      (|plan| == 2 ==> plan[1].inputStart == plan[0].size && plan[0].size + plan[1].size == nframes)
  {
  }

  /** The buffer after one pass of the block `xs`. */
  function AddPass(buf: seq<real>, pass: Pass, xs: seq<real>): (r: seq<real>)
    requires Fits(pass, |buf|, |xs|)
    ensures |r| == |buf|
  {
    seq(|buf|, j requires 0 <= j < |buf| =>
      if pass.bufferStart <= j < pass.bufferStart + pass.size then buf[j] + xs[pass.inputStart + (j - pass.bufferStart)]
      else buf[j])
  }

  /** The buffer after the passes of `plan`, in order. */
  function ApplyPlan(buf: seq<real>, plan: seq<Pass>, xs: seq<real>): (r: seq<real>)
    requires forall p :: 0 <= p < |plan| ==> Fits(plan[p], |buf|, |xs|)
    ensures |r| == |buf|
  {
    if |plan| == 0 then buf
    else AddPass(ApplyPlan(buf, plan[..|plan| - 1], xs), plan[|plan| - 1], xs)
  }

  /** The passes together add the block exactly where `Landed` puts it. */
  lemma PlanLands(buf: seq<real>, ptr: int, delay: int, xs: seq<real>)
    requires |buf| > 0 && 0 <= ptr <= |buf| && 0 <= delay && delay + |xs| <= |buf|
    ensures forall p :: 0 <= p < |Plan(ptr, delay, |buf|, |xs|)| ==> Fits(Plan(ptr, delay, |buf|, |xs|)[p], |buf|, |xs|)
    ensures ApplyPlan(buf, Plan(ptr, delay, |buf|, |xs|), xs) == Landed(buf, (ptr + delay) % |buf|, xs)
  {
    var n, m := |buf|, |xs|;
    PlanFits(ptr, delay, n, m);
    var plan := Plan(ptr, delay, n, m);
    var offset := ptr + delay;
    if offset > n || offset + m <= n {
      assert ApplyPlan(buf, plan, xs) == AddPass(buf, plan[0], xs) by {
        assert plan[..0] == [];
      }
      if offset > n {
        ModAddMultiple(offset - n, 1, n);
        OnePassLands(buf, offset - n, offset % n, xs);
      } else {
        OnePassLands(buf, offset, offset % n, xs);
      }
    } else {
      assert ApplyPlan(buf, plan, xs) == AddPass(AddPass(buf, plan[0], xs), plan[1], xs) by {
        assert plan[..1][..0] == [];
        assert ApplyPlan(buf, plan[..1], xs) == AddPass(buf, plan[0], xs);
      }
      TwoPassesLand(buf, offset, offset % n, xs);
    }
  }

  /** A single pass from `s`, when the block fits before the end, lands it from `s` on. */
  lemma OnePassLands(buf: seq<real>, s: int, start: int, xs: seq<real>)
    requires |buf| > 0 && 0 <= s && s + |xs| <= |buf| && start == s % |buf|
    ensures AddPass(buf, Pass(s, 0, |xs|), xs) == Landed(buf, start, xs)
  {
    var n, m := |buf|, |xs|;
    forall j | 0 <= j < n
      ensures AddPass(buf, Pass(s, 0, m), xs)[j] == Landed(buf, start, xs)[j]
    {
      OffsetShift(s, start, n, j);
      if j < s {
        ModUnique(j - s, n, -1, j - s + n);
      } else {
        ModUnique(j - s, n, 0, j - s);
      }
    }
  }

  /** The two passes of a block crossing the end land it from `offset` on, round the ring. */
  lemma TwoPassesLand(buf: seq<real>, offset: int, start: int, xs: seq<real>)
    requires |buf| > 0 && 0 <= offset <= |buf| && offset + |xs| > |buf| && |xs| <= |buf| && start == offset % |buf|
    ensures var n := |buf|;
      AddPass(AddPass(buf, Pass(offset, 0, n - offset), xs), Pass(0, n - offset, |xs| - (n - offset)), xs) ==
      Landed(buf, start, xs)
  {
    var n := |buf|;
    var first := AddPass(buf, Pass(offset, 0, n - offset), xs);
    forall j | 0 <= j < n
      ensures AddPass(first, Pass(0, n - offset, |xs| - (n - offset)), xs)[j] == Landed(buf, start, xs)[j]
    {
      OffsetShift(offset, start, n, j);
      if j >= offset {
        ModUnique(j - offset, n, 0, j - offset);
      } else {
        ModUnique(j - offset, n, -1, j - offset + n);
      }
    }
  }

  /** Offsets from two congruent starting slots agree. */
  lemma OffsetShift(s: int, start: int, n: int, j: int)
    requires n > 0 && start == s % n
    ensures Offset(start, n, j) == (j - s) % n
  {
    var q := s / n;
    assert j - start == (j - s) + q * n;
    ModAddMultiple(j - s, q, n);
  }

  // ---------------------------------------------------------------------
  // All sources mixed into one side
  // ---------------------------------------------------------------------

  /** One side's buffer after the first `i` sources have been added. */
  function Mixed(buf: seq<real>, ptr: int, delays: seq<int>, gains: seq<real>,
                 inputs: seq<seq<real>>, nframes: int, i: nat): (r: seq<real>)
    requires |buf| > 0 && i <= |delays| && i <= |gains| && i <= |inputs| && 0 <= nframes
    requires forall s :: 0 <= s < i ==> nframes <= |inputs[s]|
    ensures |r| == |buf|
  {
    if i == 0 then buf
    else Landed(Mixed(buf, ptr, delays, gains, inputs, nframes, i - 1), (ptr + delays[i - 1]) % |buf|,
                Gains(inputs[i - 1], gains[i - 1], nframes))
  }

  /** One more source landed on the mix of the first `i`. */
  lemma MixedNext(buf: seq<real>, ptr: int, delays: seq<int>, gains: seq<real>,
                  inputs: seq<seq<real>>, nframes: int, i: nat, cur: seq<real>, next: seq<real>, n: int, d: int, g: real)
    requires |buf| > 0 && i < |delays| && i < |gains| && i < |inputs| && 0 <= nframes
    requires forall s :: 0 <= s <= i ==> nframes <= |inputs[s]|
    requires n == |buf| && d == delays[i] && g == gains[i]
    requires cur == Mixed(buf, ptr, delays, gains, inputs, nframes, i)
    requires next == Landed(cur, (ptr + d) % n, Gains(inputs[i], g, nframes))
    ensures next == Mixed(buf, ptr, delays, gains, inputs, nframes, i + 1)
  {
    assert Mixed(buf, ptr, delays, gains, inputs, nframes, i + 1) == Landed(cur, (ptr + delays[i]) % |buf|, Gains(inputs[i], gains[i], nframes));
  }

  /** The sum of what the first `i` sources add to slot `j`. */
  function MixSum(n: int, ptr: int, delays: seq<int>, gains: seq<real>,
                  inputs: seq<seq<real>>, nframes: int, i: nat, j: int): real
    requires n > 0 && i <= |delays| && i <= |gains| && i <= |inputs| && 0 <= nframes
    requires forall s :: 0 <= s < i ==> nframes <= |inputs[s]|
  {
    if i == 0 then 0.0
    else MixSum(n, ptr, delays, gains, inputs, nframes, i - 1, j) +
         Contribution((ptr + delays[i - 1]) % n, Gains(inputs[i - 1], gains[i - 1], nframes), n, j)
  }

  /** Superposition: each slot holds its old value plus every source's contribution. */
  lemma {:induction false} MixedIsSum(buf: seq<real>, ptr: int, delays: seq<int>, gains: seq<real>,
                                      inputs: seq<seq<real>>, nframes: int, i: nat, j: int)
    requires |buf| > 0 && i <= |delays| && i <= |gains| && i <= |inputs| && 0 <= nframes && 0 <= j < |buf|
    requires forall s :: 0 <= s < i ==> nframes <= |inputs[s]|
    ensures Mixed(buf, ptr, delays, gains, inputs, nframes, i)[j] ==
            buf[j] + MixSum(|buf|, ptr, delays, gains, inputs, nframes, i, j)
  {
    if i > 0 {
      MixedIsSum(buf, ptr, delays, gains, inputs, nframes, i - 1, j);
    }
  }

  // ---------------------------------------------------------------------
  // Reading the output block
  // ---------------------------------------------------------------------

  /** The `k` slots from `start` on, taken round the ring. */
  function Window(buf: seq<real>, start: int, k: int): (w: seq<real>)
    requires |buf| > 0 && 0 <= k
    ensures |w| == k
  {
    seq(k, f requires 0 <= f < k => buf[Slot(start, f, |buf|)])
  }

  /** The buffer with the `k` slots from `start` on, taken round the ring, set to 0. */
  function Cleared(buf: seq<real>, start: int, k: int): (r: seq<real>)
    requires |buf| > 0
    ensures |r| == |buf|
  {
    seq(|buf|, j requires 0 <= j < |buf| => if Offset(start, |buf|, j) < k then 0.0 else buf[j])
  }

  /** Exactly the slots read are cleared: a slot is set to 0 iff some frame of the block reads it. */
  lemma ClearedExactly(buf: seq<real>, start: int, k: int, j: int)
    requires |buf| > 0 && 0 <= k <= |buf| && 0 <= j < |buf|
    ensures (exists f :: 0 <= f < k && Slot(start, f, |buf|) == j) ==> Cleared(buf, start, k)[j] == 0.0
    ensures (forall f :: 0 <= f < k ==> Slot(start, f, |buf|) != j) ==> Cleared(buf, start, k)[j] == buf[j]
  {
    var n := |buf|;
    if f :| 0 <= f < k && Slot(start, f, n) == j {
      OffsetOfSlot(start, f, n);
    }
    if Offset(start, n, j) < k {
      SlotOfOffset(start, n, j);
    }
  }

  /** The buffer pointer after a block of `nframes`. */
  function NextPtr(ptr: int, nframes: int, n: int): int {
    if ptr + nframes > n then ptr + nframes - n else ptr + nframes
  }

  /**
   * The pointer stays in `[0, n]` and moves by `nframes` round the ring; it
   * reaches `n` only after a block that ends exactly at the end of the
   * buffer, or a full-size block that starts there.
   */
  lemma NextPtrBounds(ptr: int, nframes: int, n: int)
    requires n > 0 && 0 <= ptr <= n && 0 <= nframes <= n
    ensures 0 <= NextPtr(ptr, nframes, n) <= n
    ensures NextPtr(ptr, nframes, n) % n == (ptr + nframes) % n
    ensures NextPtr(ptr, nframes, n) == n <==> ptr + nframes == n || ptr + nframes == 2 * n
  {
    if ptr + nframes > n {
      ModAddMultiple(ptr + nframes - n, 1, n);
    }
  }

  /** The buffer with the slots `[lo, hi)` set to 0. */
  function ClearedRange(buf: seq<real>, lo: int, hi: int): (r: seq<real>)
    ensures |r| == |buf|
  {
    seq(|buf|, j requires 0 <= j < |buf| => if lo <= j < hi then 0.0 else buf[j])
  }

  // ---------------------------------------------------------------------
  // The panner's state
  // ---------------------------------------------------------------------

  class Panner {
    /** The number of sources and the number of slots of each output ring buffer. */
    const count: nat
    const bufferSize: nat
    const bufferL: array<real>
    const bufferR: array<real>
    /** Per source: the delay in samples and the attenuation, for each ear. */
    const samplesL: array<int>
    const samplesR: array<int>
    const attenuationL: array<real>
    const attenuationR: array<real>
    var bufferPtr: int

    /** The arrays have their sizes and are pairwise distinct. */
    predicate Valid() {
      bufferSize > 0 && bufferL.Length == bufferSize && bufferR.Length == bufferSize &&
      samplesL.Length == count && samplesR.Length == count &&
      attenuationL.Length == count && attenuationR.Length == count &&
      bufferL != bufferR && samplesL != samplesR && attenuationL != attenuationR &&
      attenuationL != bufferL && attenuationL != bufferR && attenuationR != bufferL && attenuationR != bufferR
    }

    /** Activated: the buffer pointer is inside `[0, bufferSize]`. */
    predicate Active()
      reads this
    {
      Valid() && 0 <= bufferPtr <= bufferSize
    }

    /**
     * The arrays are allocated; their contents and the buffer pointer are
     * whatever they are until `Activate` and the first geometry update.
     */
    constructor(count: nat, bufferSize: nat)
      requires bufferSize > 0
      ensures Valid() && this.count == count && this.bufferSize == bufferSize
      ensures fresh(bufferL) && fresh(bufferR) && fresh(samplesL) && fresh(samplesR)
      ensures fresh(attenuationL) && fresh(attenuationR)
    {
      this.count := count;
      this.bufferSize := bufferSize;
      bufferL := new real[bufferSize];
      bufferR := new real[bufferSize];
      samplesL := new int[count];
      samplesR := new int[count];
      attenuationL := new real[count];
      attenuationR := new real[count];
    }

    /** `activate`: both buffers are zeroed and the pointer is set to 0. */
    method Activate()
      requires Valid()
      modifies bufferL, bufferR, this`bufferPtr
      ensures Active() && bufferPtr == 0
      ensures forall j :: 0 <= j < bufferSize ==> bufferL[j] == 0.0 && bufferR[j] == 0.0
    {
      for i := 0 to bufferSize
        invariant forall j :: 0 <= j < i ==> bufferL[j] == 0.0 && bufferR[j] == 0.0
      {
        bufferL[i] := 0.0;
        bufferR[i] := 0.0;
      }
      bufferPtr := 0;
    }

    /**
     * The left or the right half of the scatter step for one source: its
     * block of `nframes` samples times `gain` lands `delay` slots after the
     * buffer pointer, taken round the ring.
     */
    method ScatterAdd(buffer: array<real>, delay: int, gain: real, row: seq<real>, nframes: int)
      requires Active() && (buffer == bufferL || buffer == bufferR)
      requires 0 <= delay && 0 <= nframes <= |row| && delay + nframes <= bufferSize
      modifies buffer
      ensures buffer[..] == Landed(old(buffer[..]), (bufferPtr + delay) % bufferSize, Gains(row, gain, nframes))
    {
      ghost var xs := Gains(row, gain, nframes);
      ghost var before := buffer[..];
      var plan := Plan(bufferPtr, delay, bufferSize, nframes);
      PlanFits(bufferPtr, delay, bufferSize, nframes);
      for p := 0 to |plan|
        invariant buffer[..] == ApplyPlan(before, plan[..p], xs)
      {
        assert plan[..p + 1][..p] == plan[..p];
        AddPassTo(buffer, plan[p], row, gain, nframes);
      }
      assert plan[..|plan|] == plan;
      PlanLands(before, bufferPtr, delay, xs);
    }

    /** One pass of the scatter step: `pass.size` samples added in order. */
    static method AddPassTo(buffer: array<real>, pass: Pass, row: seq<real>, gain: real, nframes: int)
      requires 0 <= nframes <= |row| && Fits(pass, buffer.Length, nframes)
      modifies buffer
      ensures buffer[..] == AddPass(old(buffer[..]), pass, Gains(row, gain, nframes))
    {
      ghost var before, xs := buffer[..], Gains(row, gain, nframes);
      for f := 0 to pass.size
        invariant buffer[..] == AddPass(before, Pass(pass.bufferStart, pass.inputStart, f), xs)
      {
        assert xs[pass.inputStart + f] == row[pass.inputStart + f] * gain;
        buffer[pass.bufferStart + f] := buffer[pass.bufferStart + f] + row[pass.inputStart + f] * gain;
      }
    }

    /**
     * Every source's block scattered into both sides, left then right per
     * source, with the delays and attenuations last set by the geometry.
     */
    method Scatter(inputs: seq<seq<real>>, nframes: int)
      requires Active() && |inputs| == count && 0 <= nframes <= bufferSize
      requires forall s :: 0 <= s < count ==> nframes <= |inputs[s]|
      requires forall s :: 0 <= s < count ==> 0 <= samplesL[s] && samplesL[s] + nframes <= bufferSize
      requires forall s :: 0 <= s < count ==> 0 <= samplesR[s] && samplesR[s] + nframes <= bufferSize
      modifies bufferL, bufferR
      ensures bufferL[..] == Mixed(old(bufferL[..]), bufferPtr, samplesL[..], attenuationL[..], inputs, nframes, count)
      ensures bufferR[..] == Mixed(old(bufferR[..]), bufferPtr, samplesR[..], attenuationR[..], inputs, nframes, count)
    {
      ghost var dl, dr, gl, gr := samplesL[..], samplesR[..], attenuationL[..], attenuationR[..];
      for i := 0 to count
        invariant bufferL[..] == Mixed(old(bufferL[..]), bufferPtr, dl, gl, inputs, nframes, i)
        invariant bufferR[..] == Mixed(old(bufferR[..]), bufferPtr, dr, gr, inputs, nframes, i)
      {
        ghost var l, r := bufferL[..], bufferR[..];
        ScatterSource(i, inputs[i], nframes);
        MixedNext(old(bufferL[..]), bufferPtr, dl, gl, inputs, nframes, i, l, bufferL[..], bufferSize, samplesL[i], attenuationL[i]);
        MixedNext(old(bufferR[..]), bufferPtr, dr, gr, inputs, nframes, i, r, bufferR[..], bufferSize, samplesR[i], attenuationR[i]);
      }
    }

    /** Source `i`'s block scattered into the left, then into the right buffer. */
    method ScatterSource(i: int, row: seq<real>, nframes: int)
      requires Active() && 0 <= i < count && 0 <= nframes <= |row| && nframes <= bufferSize
      requires 0 <= samplesL[i] && samplesL[i] + nframes <= bufferSize
      requires 0 <= samplesR[i] && samplesR[i] + nframes <= bufferSize
      modifies bufferL, bufferR
      ensures bufferL[..] == Landed(old(bufferL[..]), (bufferPtr + samplesL[i]) % bufferSize, Gains(row, attenuationL[i], nframes))
      ensures bufferR[..] == Landed(old(bufferR[..]), (bufferPtr + samplesR[i]) % bufferSize, Gains(row, attenuationR[i], nframes))
    {
      ScatterAdd(bufferL, samplesL[i], attenuationL[i], row, nframes);
      ScatterAdd(bufferR, samplesR[i], attenuationR[i], row, nframes);
    }

    /** One pass of the read-and-clear loop: `k` slots read from the pointer on, cleared, and passed. */
    method ReadClear(k: int) returns (outL: seq<real>, outR: seq<real>)
      requires Valid() && 0 <= bufferPtr && 0 <= k && bufferPtr + k <= bufferSize
      modifies bufferL, bufferR, this`bufferPtr
      ensures outL == old(bufferL[bufferPtr..bufferPtr + k]) && outR == old(bufferR[bufferPtr..bufferPtr + k])
      ensures bufferL[..] == ClearedRange(old(bufferL[..]), old(bufferPtr), old(bufferPtr) + k)
      ensures bufferR[..] == ClearedRange(old(bufferR[..]), old(bufferPtr), old(bufferPtr) + k)
      ensures bufferPtr == old(bufferPtr) + k
    {
      ghost var l0, r0, p0 := bufferL[..], bufferR[..], bufferPtr;
      outL, outR := [], [];
      for f := 0 to k
        invariant bufferPtr == p0 + f
        invariant outL == l0[p0..p0 + f] && outR == r0[p0..p0 + f]
        invariant bufferL[..] == ClearedRange(l0, p0, p0 + f) && bufferR[..] == ClearedRange(r0, p0, p0 + f)
      {
        outL, outR := outL + [bufferL[bufferPtr]], outR + [bufferR[bufferPtr]];
        bufferL[bufferPtr] := 0.0;
        bufferR[bufferPtr] := 0.0;
        bufferPtr := bufferPtr + 1;
      }
    }

    /**
     * The output step: the block of `nframes` samples read from the pointer
     * on, round the ring, in one or two passes; every slot read is cleared.
     */
    method Drain(nframes: int) returns (outL: seq<real>, outR: seq<real>)
      requires Active() && 0 <= nframes <= bufferSize
      modifies bufferL, bufferR, this`bufferPtr
      ensures Active() && bufferPtr == NextPtr(old(bufferPtr), nframes, bufferSize)
      ensures outL == Window(old(bufferL[..]), old(bufferPtr), nframes)
      ensures outR == Window(old(bufferR[..]), old(bufferPtr), nframes)
      ensures bufferL[..] == Cleared(old(bufferL[..]), old(bufferPtr), nframes)
      ensures bufferR[..] == Cleared(old(bufferR[..]), old(bufferPtr), nframes)
    {
      NextPtrBounds(bufferPtr, nframes, bufferSize);
      if bufferPtr + nframes > bufferSize {
        outL, outR := DrainWrapped(nframes);
      } else {
        outL, outR := DrainStraight(nframes);
      }
    }

    /** The block runs past the end of the buffers: read and clear to the end, then from slot 0. */
    method DrainWrapped(nframes: int) returns (outL: seq<real>, outR: seq<real>)
      requires Active() && 0 <= nframes <= bufferSize && bufferPtr + nframes > bufferSize
      modifies bufferL, bufferR, this`bufferPtr
      ensures bufferPtr == old(bufferPtr) + nframes - bufferSize
      ensures outL == Window(old(bufferL[..]), old(bufferPtr), nframes)
      ensures outR == Window(old(bufferR[..]), old(bufferPtr), nframes)
      ensures bufferL[..] == Cleared(old(bufferL[..]), old(bufferPtr), nframes)
      ensures bufferR[..] == Cleared(old(bufferR[..]), old(bufferPtr), nframes)
    {
      ghost var l0, r0, p0 := bufferL[..], bufferR[..], bufferPtr;
      var pass1 := bufferSize - bufferPtr;
      var pass2 := nframes - pass1;
      var l1, r1 := ReadClear(pass1);
      ghost var lm, rm := bufferL[..], bufferR[..];
      bufferPtr := 0;
      var l2, r2 := ReadClear(pass2);
      outL, outR := l1 + l2, r1 + r2;
      DrainTwoPasses(l0, lm, bufferL[..], outL, p0, nframes);
      DrainTwoPasses(r0, rm, bufferR[..], outR, p0, nframes);
    }

    /** The block fits before the end of the buffers: one pass of reading and clearing. */
    method DrainStraight(nframes: int) returns (outL: seq<real>, outR: seq<real>)
      requires Active() && 0 <= nframes && bufferPtr + nframes <= bufferSize
      modifies bufferL, bufferR, this`bufferPtr
      ensures bufferPtr == old(bufferPtr) + nframes
      ensures outL == Window(old(bufferL[..]), old(bufferPtr), nframes)
      ensures outR == Window(old(bufferR[..]), old(bufferPtr), nframes)
      ensures bufferL[..] == Cleared(old(bufferL[..]), old(bufferPtr), nframes)
      ensures bufferR[..] == Cleared(old(bufferR[..]), old(bufferPtr), nframes)
    {
      ghost var l0, r0, p0 := bufferL[..], bufferR[..], bufferPtr;
      outL, outR := ReadClear(nframes);
      DrainOnePass(l0, bufferL[..], outL, p0, nframes);
      DrainOnePass(r0, bufferR[..], outR, p0, nframes);
    }

    /**
     * `run` after the geometry: the blocks of all sources are scattered into
     * both buffers, then the output block is read and cleared.
     */
    method Run(inputs: seq<seq<real>>, nframes: int) returns (outL: seq<real>, outR: seq<real>)
      requires Active() && |inputs| == count && 0 <= nframes <= bufferSize
      requires forall s :: 0 <= s < count ==> nframes <= |inputs[s]|
      requires forall s :: 0 <= s < count ==> 0 <= samplesL[s] && samplesL[s] + nframes <= bufferSize
      requires forall s :: 0 <= s < count ==> 0 <= samplesR[s] && samplesR[s] + nframes <= bufferSize
      modifies bufferL, bufferR, this`bufferPtr
      ensures Active() && bufferPtr == NextPtr(old(bufferPtr), nframes, bufferSize)
      ensures var mixed := Mixed(old(bufferL[..]), old(bufferPtr), samplesL[..], attenuationL[..], inputs, nframes, count);
        outL == Window(mixed, old(bufferPtr), nframes) && bufferL[..] == Cleared(mixed, old(bufferPtr), nframes)
      ensures var mixed := Mixed(old(bufferR[..]), old(bufferPtr), samplesR[..], attenuationR[..], inputs, nframes, count);
        outR == Window(mixed, old(bufferPtr), nframes) && bufferR[..] == Cleared(mixed, old(bufferPtr), nframes)
    {
      Scatter(inputs, nframes);
      outL, outR := Drain(nframes);
    }

    /**
     * The bookkeeping end of `update_data`: the per-source delays are stored,
     * the attenuations are stored while their product is built, and every
     * attenuation is then multiplied by the reciprocal of that product.
     */
    method SetSources(delaysL: seq<int>, delaysR: seq<int>, rawL: seq<real>, rawR: seq<real>)
      requires Valid() && |delaysL| == count && |delaysR| == count && |rawL| == count && |rawR| == count
      requires Product(rawL, rawR, count) != 0.0
      modifies samplesL, samplesR, attenuationL, attenuationR
      ensures samplesL[..] == delaysL && samplesR[..] == delaysR
      ensures attenuationL[..] == Scaled(rawL, 1.0 / Product(rawL, rawR, count))
      ensures attenuationR[..] == Scaled(rawR, 1.0 / Product(rawL, rawR, count))
    {
      var attenuation := Store(delaysL, delaysR, rawL, rawR);
      attenuation := 1.0 / attenuation;
      Normalise(attenuation);
    }

    /** The per-source loop: delays and attenuations stored, their product built. */
    method Store(delaysL: seq<int>, delaysR: seq<int>, rawL: seq<real>, rawR: seq<real>) returns (attenuation: real)
      requires Valid() && |delaysL| == count && |delaysR| == count && |rawL| == count && |rawR| == count
      modifies samplesL, samplesR, attenuationL, attenuationR
      ensures samplesL[..] == delaysL && samplesR[..] == delaysR
      ensures attenuationL[..] == rawL && attenuationR[..] == rawR
      ensures attenuation == Product(rawL, rawR, count)
    {
      attenuation := 1.0;
      for i := 0 to count
        invariant attenuation == Product(rawL, rawR, i)
        invariant samplesL[..i] == delaysL[..i] && samplesR[..i] == delaysR[..i]
        invariant attenuationL[..i] == rawL[..i] && attenuationR[..i] == rawR[..i]
      {
        samplesL[i] := delaysL[i];
        samplesR[i] := delaysR[i];
        attenuationL[i] := rawL[i];
        attenuationR[i] := rawR[i];
        attenuation := attenuation * attenuationL[i];
        attenuation := attenuation * attenuationR[i];
      }
      assert samplesL[..count] == samplesL[..] && samplesR[..count] == samplesR[..];
      assert attenuationL[..count] == attenuationL[..] && attenuationR[..count] == attenuationR[..];
    }

    /** The normalisation loop: every attenuation multiplied by `k`. */
    method Normalise(k: real)
      requires Valid()
      modifies attenuationL, attenuationR
      ensures attenuationL[..] == Scaled(old(attenuationL[..]), k)
      ensures attenuationR[..] == Scaled(old(attenuationR[..]), k)
    {
      for i := 0 to count
        invariant forall j :: 0 <= j < count ==> attenuationL[j] == if j < i then old(attenuationL[j]) * k else old(attenuationL[j])
        invariant forall j :: 0 <= j < count ==> attenuationR[j] == if j < i then old(attenuationR[j]) * k else old(attenuationR[j])
      {
        attenuationL[i] := attenuationL[i] * k;
        attenuationR[i] := attenuationR[i] * k;
      }
      ghost var sl, sr := Scaled(old(attenuationL[..]), k), Scaled(old(attenuationR[..]), k);
      assert forall j :: 0 <= j < count ==> sl[j] == old(attenuationL[j]) * k && sr[j] == old(attenuationR[j]) * k;
    }
  }

  /** The single-pass output step reads and clears the window round the ring. */
  lemma DrainOnePass(b0: seq<real>, b1: seq<real>, out: seq<real>, p0: int, k: int)
    requires |b0| > 0 && 0 <= p0 && 0 <= k && p0 + k <= |b0|
    requires out == b0[p0..p0 + k] && b1 == ClearedRange(b0, p0, p0 + k)
    ensures out == Window(b0, p0, k) && b1 == Cleared(b0, p0, k)
  {
    var n := |b0|;
    forall f | 0 <= f < k
      ensures out[f] == Window(b0, p0, k)[f]
    {
      ModSmall(p0 + f, n);
    }
    forall j | 0 <= j < n
      ensures b1[j] == Cleared(b0, p0, k)[j]
    {
      if p0 <= j {
        ModUnique(j - p0, n, 0, j - p0);
      } else {
        ModUnique(j - p0, n, -1, j - p0 + n);
      }
    }
  }

  /** The two-pass output step reads and clears the window round the ring. */
  lemma DrainTwoPasses(b0: seq<real>, bm: seq<real>, b1: seq<real>, out: seq<real>, p0: int, k: int)
    requires |b0| > 0 && 0 <= p0 <= |b0| && k <= |b0| && p0 + k > |b0|
    requires bm == ClearedRange(b0, p0, |b0|) && b1 == ClearedRange(bm, 0, k - (|b0| - p0))
    requires out == b0[p0..|b0|] + bm[0..k - (|b0| - p0)]
    ensures out == Window(b0, p0, k) && b1 == Cleared(b0, p0, k)
  {
    var n := |b0|;
    forall f | 0 <= f < k
      ensures out[f] == Window(b0, p0, k)[f]
    {
      if p0 + f < n {
        ModSmall(p0 + f, n);
      } else {
        ModUnique(p0 + f, n, 1, p0 + f - n);
      }
    }
    forall j | 0 <= j < n
      ensures b1[j] == Cleared(b0, p0, k)[j]
    {
      if p0 <= j {
        ModUnique(j - p0, n, 0, j - p0);
      } else {
        ModUnique(j - p0, n, -1, j - p0 + n);
      }
    }
  }
}
