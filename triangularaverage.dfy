/**
 * The triangular-weighted moving-average filter: the same three circular
 * arrays as the flat filter, plus a slope accumulator `iStep` that is moved
 * by the new value and three earlier taps at fixed offsets behind the fill
 * cursor, so that each pushed value's weight rises and falls linearly across
 * a window of `iWindowSize` pushes.
 */
module TriangularAverageFilter {
  import opened Modular

  /** The three histories and the slope accumulator, as values. */
  datatype Tri = Tri(data: seq<int>, sum: seq<int>, scaled: seq<real>, step: int)

  predicate Sized(t: Tri, n: int) {
    |t.data| == n && |t.sum| == n && |t.scaled| == n
  }

  /** The state `clean` leaves behind. */
  function Cleaned(n: nat): Tri {
    Tri(seq(n, _ => 0), seq(n, _ => 0), seq(n, _ => 0.0), 0)
  }

  /**
   * The window `setWindowSize(size)` keeps for a buffer of `capacity` slots:
   * the largest even number not above `size` and below `capacity`.
   */
  function ClampedWindow(size: int, capacity: int): (w: int)
    ensures w % 2 == 0 && w <= capacity - 1
    ensures w <= size && w >= (if size < capacity then size else capacity - 1) - 1
    ensures size % 2 == 0 && size < capacity ==> w == size
  {
    var s := if size >= capacity then capacity - 1 else size;
    if s % 2 != 0 then s - 1 else s
  }

  /** The three tap offsets behind the fill cursor for window `w`. */
  function Offsets(w: int): seq<int> {
    [-(w + 1), -(w / 2 + 1), -(w / 2 + 1) + 1]
  }

  /** The scaling factor `(1 + h) * h` for half-window `h = w / 2`. */
  function Scaling(w: int): real {
    (1 + w / 2) as real * (w / 2) as real
  }

  /**
   * The accumulator after one iteration of the `pushData` loop with the fill
   * cursor on slot `k`: the value plus the first tap minus the other two, all
   * read before the slot is written.
   */
  function Acc(t: Tri, n: int, k: int, value: int, off: seq<int>): int
    requires 0 <= k < n && Sized(t, n) && |off| == 3
  {
    t.step + (value + t.data[Wrap(k + off[0], n)] - t.data[Wrap(k + off[1], n)] - t.data[Wrap(k + off[2], n)])
  }

  /**
   * The writes of that iteration, given the new accumulator `step`: the slot
   * takes the value, its sum is the previous slot's sum plus `step`, and its
   * scaled sum is that divided by `f`.
   */
  function Write(t: Tri, n: int, k: int, value: int, step: int, f: real): (r: Tri)
    requires 0 <= k < n && Sized(t, n) && f != 0.0
    ensures Sized(r, n)
  {
    var s := t.sum[Wrap(k - 1, n)] + step;
    Tri(t.data[k := value], t.sum[k := s], t.scaled[k := s as real / f], step)
  }

  /** One iteration of the `pushData` loop with the fill cursor on slot `k`. */
  function Step(t: Tri, n: int, k: int, value: int, off: seq<int>, f: real): (r: Tri)
    requires 0 <= k < n && Sized(t, n) && |off| == 3 && f != 0.0
    ensures Sized(r, n)
  {
    Write(t, n, k, value, Acc(t, n, k, value, off), f)
  }

  /** `count` iterations of the loop from cursor `p`. */
  function Pushed(t: Tri, n: int, p: int, value: int, count: nat, off: seq<int>, f: real): (r: Tri)
    requires n > 0 && Sized(t, n) && |off| == 3 && f != 0.0
    ensures Sized(r, n)
  {
    if count == 0 then t
    else Step(Pushed(t, n, p, value, count - 1, off, f), n, Wrap(p + count - 1, n), value, off, f)
  }

  /**
   * Pushing `a` copies and then `b` more from the cursor the first push left
   * behind is the same as pushing `ab == a + b` copies at once. (The
   * hypothesis for shorter second runs is quantified so that it meets the
   * unfolded terms exactly.)
   */
  lemma {:induction false} PushedAppend(t: Tri, n: int, p: int, value: int, a: nat, b: nat, ab: nat, off: seq<int>, f: real)
    requires n > 0 && Sized(t, n) && |off| == 3 && f != 0.0 && ab == a + b
    ensures Pushed(Pushed(t, n, p, value, a, off, f), n, Wrap(p + a, n), value, b, off, f)
         == Pushed(t, n, p, value, ab, off, f)
  {
    if b > 0 {
      assert Wrap(Wrap(p + a, n) + b - 1, n) == Wrap(p + ab - 1, n) by {
        WrapShift(p + a, b - 1, n);
      }
      var x := Pushed(t, n, p, value, a, off, f);
      forall bm: nat, abm: nat {:trigger Pushed(x, n, Wrap(p + a, n), value, bm, off, f), Pushed(t, n, p, value, abm, off, f)}
        | bm < b && abm == a + bm
        ensures Pushed(x, n, Wrap(p + a, n), value, bm, off, f) == Pushed(t, n, p, value, abm, off, f)
      {
        PushedAppend(t, n, p, value, a, bm, abm, off, f);
      }
    }
  }

  /** Reducing the start of a run first does not move where it lands. */
  lemma WrapShift(x: int, y: int, n: int)
    requires n > 0
    ensures Wrap(Wrap(x, n) + y, n) == Wrap(x + y, n)
  {
    WrapIsMod(x, n);
    WrapIsMod(Wrap(x, n) + y, n);
    WrapIsMod(x + y, n);
    ModOfSum(x, y, n);
  }

  /* --- A constant input settles to exactly its own value. --- */

  /**
   * How the accumulator moves at push number `t` when `c` is pushed from
   * clean with half-window `h`: the new value, plus the tap `2h + 1` back,
   * minus the taps `h + 1` and `h` back, each once it has been written.
   */
  function Inc(t: int, h: int, c: int): int {
    c + (if t >= 2 * h + 1 then c else 0) - (if t >= h + 1 then c else 0) - (if t >= h then c else 0)
  }

  /** The accumulator after `t` pushes of `c` from clean. */
  function Slope(t: nat, h: int, c: int): int {
    if t == 0 then 0 else Slope(t - 1, h, c) + Inc(t - 1, h, c)
  }

  /** The running sum after `t` pushes of `c` from clean. */
  function Area(t: nat, h: int, c: int): int {
    if t == 0 then 0 else Area(t - 1, h, c) + Slope(t, h, c)
  }

  /** The accumulator climbs by `c` for `h` pushes, falls back to 0 and stays there. */
  lemma {:induction false} SlopeValue(t: nat, h: int, c: int)
    requires h >= 1
    ensures t <= h ==> Slope(t, h, c) == c * t
    ensures h < t <= 2 * h + 1 ==> Slope(t, h, c) == c * (2 * h + 1 - t)
    ensures t >= 2 * h + 1 ==> Slope(t, h, c) == 0
  {
    if t > 0 {
      SlopeValue(t - 1, h, c);
      assert Slope(t, h, c) == Slope(t - 1, h, c) + Inc(t - 1, h, c);
      if t <= h {
        MulSucc(c, t - 1);
      } else if t == h + 1 {
        assert 2 * h + 1 - t == h;
      } else if t <= 2 * h + 1 {
        MulSucc(c, 2 * h + 1 - t);
      } else if t == 2 * h + 2 {
        assert c * 0 == 0;
      }
    }
  }

  lemma MulSucc(c: int, x: int)
    ensures c * (x + 1) == c * x + c
  {
  }

  /** While the accumulator climbs, twice the sum is `c * t * (t + 1)`. */
  lemma {:induction false} AreaRising(t: nat, h: int, c: int)
    requires h >= 1 && t <= h
    ensures 2 * Area(t, h, c) == c * (t * (t + 1))
  {
    if t > 0 {
      AreaRising(t - 1, h, c);
      SlopeValue(t, h, c);
      assert Area(t, h, c) == Area(t - 1, h, c) + c * t;
      RisingStep(t, c);
    }
  }

  /** The polynomial step behind `AreaRising`. */
  lemma RisingStep(t: int, c: int)
    ensures c * ((t - 1) * t) + 2 * (c * t) == c * (t * (t + 1))
  {
    assert (t - 1) * t + 2 * t == t * (t + 1);
    assert c * ((t - 1) * t) + 2 * (c * t) == c * ((t - 1) * t + 2 * t);
  }

  /** `u` pushes past the peak, twice the sum is `c * (h(h + 1) + 2u(h + 1) - u(u + 1))`. */
  lemma {:induction false} AreaFalling(u: nat, h: int, c: int)
    requires h >= 1 && u <= h + 1
    ensures 2 * Area(h + u, h, c) == c * (h * (h + 1) + 2 * u * (h + 1) - u * (u + 1))
  {
    if u == 0 {
      AreaRising(h, h, c);
    } else {
      AreaFalling(u - 1, h, c);
      SlopeValue(h + u, h, c);
      FallingStep(u, h, c);
    }
  }

  /** The polynomial step behind `AreaFalling`. */
  lemma FallingStep(u: int, h: int, c: int)
    ensures c * (h * (h + 1) + 2 * (u - 1) * (h + 1) - (u - 1) * u) + 2 * (c * (2 * h + 1 - (h + u)))
         == c * (h * (h + 1) + 2 * u * (h + 1) - u * (u + 1))
  {
    var before := h * (h + 1) + 2 * (u - 1) * (h + 1) - (u - 1) * u;
    var after := h * (h + 1) + 2 * u * (h + 1) - u * (u + 1);
    assert after == before + 2 * (2 * h + 1 - (h + u));
  }

  /** Once the window has passed, the sum stays at `c * (h * (h + 1))`. */
  lemma {:induction false} AreaFlat(t: nat, h: int, c: int)
    requires h >= 1 && t >= 2 * h + 1
    ensures Area(t, h, c) == c * (h * (h + 1))
  {
    if t == 2 * h + 1 {
      AreaFalling(h + 1, h, c);
      FlatStep(h, c);
    } else {
      AreaFlat(t - 1, h, c);
      SlopeValue(t, h, c);
    }
  }

  /** The polynomial step behind `AreaFlat`. */
  lemma FlatStep(h: int, c: int)
    ensures c * (h * (h + 1) + 2 * (h + 1) * (h + 1) - (h + 1) * (h + 2)) == 2 * (c * (h * (h + 1)))
  {
    assert h * (h + 1) + 2 * (h + 1) * (h + 1) - (h + 1) * (h + 2) == 2 * (h * (h + 1));
  }

  /**
   * After `t` pushes from slot 0, the slot `d` behind the cursor `k` (that
   * is, `Wrap(t, n)`) has been written exactly when `d` pushes have happened.
   */
  lemma TapWritten(n: int, t: nat, k: int, o: int)
    requires -n <= o <= -1 && k == Wrap(t, n)
    ensures var j := Wrap(k + o, n); (t >= n || j < t) <==> t >= -o
  {
    if t < n {
      assert k == t;
      if t < -o {
        assert Wrap(t + o, n) == Wrap(t + o + n, n);
      }
    }
  }

  /** The tap at offset `o` from push number `t`, when a constant `c` is pushed from clean. */
  lemma TapValue(data: seq<int>, n: int, t: nat, k: int, o: int, c: int, d: int)
    requires -n <= o <= -1 && d == -o && k == Wrap(t, n) && |data| == n
    requires forall j :: 0 <= j < n ==> data[j] == if t >= n || j < t then c else 0
    ensures data[Wrap(k + o, n)] == if t >= d then c else 0
  {
    TapWritten(n, t, k, o);
  }

  /** Stepping back one slot from `Wrap(x, n)`. */
  lemma WrapBack(x: int, k: int, n: int)
    requires n > 0 && k == Wrap(x, n)
    ensures Wrap(k - 1, n) == Wrap(x - 1, n)
  {
    WrapShift(x, -1, n);
  }

  /** The scaling factor of a window divides its settled sum back to the value. */
  lemma ScaledExact(c: int, w: int)
    requires w >= 2 && w % 2 == 0
    ensures (c * (w / 2 * (w / 2 + 1))) as real / Scaling(w) == c as real
  {
    var h := w / 2;
    assert Scaling(w) == (h * (h + 1)) as real;
  }

  /**
   * What `t` pushes of `c` from clean (cursor starting at 0) leave behind:
   * the written slots hold `c`, the accumulator is `Slope` and the slot
   * before the cursor holds `Area`.
   */
  ghost predicate Settling(r: Tri, n: int, w: int, c: int, t: nat)
    requires n > 0
  {
    Sized(r, n) &&
    (forall j :: 0 <= j < n ==> r.data[j] == if t >= n || j < t then c else 0) &&
    r.step == Slope(t, w / 2, c) &&
    r.sum[Wrap(t - 1, n)] == Area(t, w / 2, c)
  }

  /** The accumulator after one more push of `c` on slot `Wrap(t - 1, n)`, for half-window `h`. */
  lemma ConstantStepSlope(n: int, h: int, c: int, t: nat, r0: Tri, k: int, off: seq<int>, f: real)
    requires 1 <= h && 2 * h < n && t >= 1 && k == Wrap(t - 1, n) && f != 0.0 && Sized(r0, n)
    requires off == [-(2 * h + 1), -(h + 1), -h]
    requires r0.data[Wrap(k + off[0], n)] == if t - 1 >= 2 * h + 1 then c else 0
    requires r0.data[Wrap(k + off[1], n)] == if t - 1 >= h + 1 then c else 0
    requires r0.data[Wrap(k + off[2], n)] == if t - 1 >= h then c else 0
    requires r0.step == Slope(t - 1, h, c)
    ensures Step(r0, n, k, c, off, f).step == Slope(t, h, c)
  {
    StepAcc(r0, n, k, c, off, f);
  }

  /** A step leaves the accumulator it computed. */
  lemma StepAcc(t: Tri, n: int, k: int, value: int, off: seq<int>, f: real)
    requires 0 <= k < n && Sized(t, n) && |off| == 3 && f != 0.0
    ensures Step(t, n, k, value, off, f).step == Acc(t, n, k, value, off)
  {
  }

  /** The sum on slot `Wrap(t - 1, n)` after one more push of `c` there. */
  lemma ConstantStepArea(n: int, w: int, c: int, t: nat, r0: Tri, k: int)
    requires 2 <= w < n && w % 2 == 0 && t >= 1 && k == Wrap(t - 1, n) && Scaling(w) != 0.0
    requires Settling(r0, n, w, c, t - 1)
    requires Step(r0, n, k, c, Offsets(w), Scaling(w)).step == Slope(t, w / 2, c)
    ensures Step(r0, n, k, c, Offsets(w), Scaling(w)).sum[k] == Area(t, w / 2, c)
  {
    WrapBack(t - 1, k, n);
  }

  /** One more push of `c` on slot `Wrap(t - 1, n)` keeps the history settling. */
  lemma ConstantStep(n: int, w: int, c: int, t: nat, r0: Tri, k: int)
    requires 2 <= w < n && w % 2 == 0 && t >= 1 && k == Wrap(t - 1, n)
    requires Settling(r0, n, w, c, t - 1)
    ensures Scaling(w) != 0.0 && Settling(Step(r0, n, k, c, Offsets(w), Scaling(w)), n, w, c, t)
  {
    assert Scaling(w) != 0.0 by { assert w / 2 >= 1; }
    ConstantStepData(n, w, c, t, r0, k);
    ConstantStepTaps(n, w, c, t, r0, k);
    ConstantStepArea(n, w, c, t, r0, k);
  }

  /** The three taps the accumulator reads at that push, and so the accumulator after it. */
  lemma ConstantStepTaps(n: int, w: int, c: int, t: nat, r0: Tri, k: int)
    requires 2 <= w < n && w % 2 == 0 && t >= 1 && k == Wrap(t - 1, n) && Scaling(w) != 0.0
    requires Settling(r0, n, w, c, t - 1)
    ensures Step(r0, n, k, c, Offsets(w), Scaling(w)).step == Slope(t, w / 2, c)
  {
    var h, off := w / 2, Offsets(w);
    assert off == [-(2 * h + 1), -(h + 1), -h];
    TapValue(r0.data, n, t - 1, k, off[0], c, 2 * h + 1);
    TapValue(r0.data, n, t - 1, k, off[1], c, h + 1);
    TapValue(r0.data, n, t - 1, k, off[2], c, h);
    ConstantStepSlope(n, h, c, t, r0, k, off, Scaling(w));
  }

  /** The slots after one more push of `c` on slot `Wrap(t - 1, n)`. */
  lemma ConstantStepData(n: int, w: int, c: int, t: nat, r0: Tri, k: int)
    requires 2 <= w < n && w % 2 == 0 && t >= 1 && k == Wrap(t - 1, n) && Scaling(w) != 0.0
    requires Settling(r0, n, w, c, t - 1)
    ensures forall j :: 0 <= j < n ==> Step(r0, n, k, c, Offsets(w), Scaling(w)).data[j] == if t >= n || j < t then c else 0
  {
    if t - 1 < n {
      assert k == t - 1;
    }
  }

  /** Pushing `c` from clean settles as `Settling` describes, for every number of pushes. */
  lemma {:induction false} ConstantHistory(n: int, w: int, c: int, t: nat)
    requires 2 <= w < n && w % 2 == 0
    ensures Scaling(w) != 0.0 && Settling(Pushed(Cleaned(n), n, 0, c, t, Offsets(w), Scaling(w)), n, w, c, t)
  {
    var off, f := Offsets(w), Scaling(w);
    assert f != 0.0 by { assert w / 2 >= 1; }
    if t > 0 {
      forall tp: nat {:trigger Pushed(Cleaned(n), n, 0, c, tp, off, f)} | tp < t
        ensures Settling(Pushed(Cleaned(n), n, 0, c, tp, off, f), n, w, c, tp)
      {
        ConstantHistory(n, w, c, tp);
      }
      forall r0: Tri, k: int {:trigger Step(r0, n, k, c, off, f)}
        | k == Wrap(t - 1, n) && Settling(r0, n, w, c, t - 1)
        ensures Settling(Step(r0, n, k, c, off, f), n, w, c, t)
      {
        ConstantStep(n, w, c, t, r0, k);
      }
    }
  }

  /**
   * Pushing the same value `c` from clean at least `W + 1` times (with an
   * even window `W >= 2` below the capacity) leaves the accumulator at 0, the
   * sum at the last written slot at `c * (h * (h + 1))` with `h = W / 2`, and
   * so the scaled output there at exactly `c`.
   */
  lemma ConstantSettles(n: int, w: int, c: int, t: nat)
    requires 2 <= w < n && w % 2 == 0 && t >= w + 1
    ensures Scaling(w) != 0.0
    ensures var r, h, k := Pushed(Cleaned(n), n, 0, c, t, Offsets(w), Scaling(w)), w / 2, (t - 1) % n;
      r.step == 0 && r.sum[k] == c * (h * (h + 1)) && r.scaled[k] == c as real
  {
    ConstantHistory(n, w, c, t);
    SlopeValue(t, w / 2, c);
    AreaFlat(t, w / 2, c);
    WrapIsMod(t - 1, n);
    ScaledExact(c, w);
  }

  /* --- Any input: the output is the triangular-weighted sum of the last `W` values. --- */

  /** Value number `i` of a stream, with everything before the first push (clean, so zero) as 0. */
  function Hist(xs: seq<int>, i: int): int {
    if 0 <= i < |xs| then xs[i] else 0
  }

  /**
   * The state after the first `t` values of `xs` are pushed one at a time
   * (each a `pushData(x, 1)`, one iteration of its loop on slot
   * `Wrap(t - 1, n)`) from clean, where the fill cursor starts at 0, for any
   * taps `off` and scaling factor `f`.
   */
  function Stream(n: int, off: seq<int>, f: real, xs: seq<int>, t: nat): (r: Tri)
    requires n > 0 && |off| == 3 && f != 0.0 && t <= |xs|
    ensures Sized(r, n)
  {
    if t == 0 then Cleaned(n)
    else Step(Stream(n, off, f, xs, t - 1), n, Wrap(t - 1, n), xs[t - 1], off, f)
  }

  /** The same with the taps and factor of a window `w`. */
  function Streamed(n: int, w: int, xs: seq<int>, t: nat): (r: Tri)
    requires 2 <= w < n && w % 2 == 0 && t <= |xs|
    ensures Sized(r, n)
  {
    assert Scaling(w) != 0.0 by { assert w / 2 >= 1; }
    Stream(n, Offsets(w), Scaling(w), xs, t)
  }

  /** The weight of the value pushed `j` pushes before the latest one, for half-window `h`. */
  function Weight(j: int, h: int): int {
    if j < h then j + 1 else 2 * h - j
  }

  /**
   * The weighted sum `Σ_{j < m} Weight(j, h) * xs[t - 1 - j]` over the `m`
   * latest of the first `t` values.
   */
  function Weighted(xs: seq<int>, t: int, h: int, m: nat): int
    requires m <= t <= |xs|
  {
    if m == 0 then 0 else Weighted(xs, t, h, m - 1) + Weight(m - 1, h) * xs[t - m]
  }

  /** The same sum over a window of `m` with the zero history before the first push. */
  function Padded(xs: seq<int>, t: int, h: int, m: nat): int {
    if m == 0 then 0 else Padded(xs, t, h, m - 1) + Weight(m - 1, h) * Hist(xs, t - m)
  }

  /** `Σ_{a <= i < b} Hist(xs, i)`. */
  function Run(xs: seq<int>, a: int, b: int): int
    decreases b - a
  {
    if b <= a then 0 else Run(xs, a, b - 1) + Hist(xs, b - 1)
  }

  /**
   * What the first `t` pushes leave behind: the last `n` slots before the
   * cursor hold the last `n` values, the accumulator is the `h` latest values
   * minus the `h` before the one after them, and the latest sum is the
   * weighted window.
   */
  ghost predicate StreamState(r: Tri, n: int, w: int, xs: seq<int>, t: int)
    requires n > 0 && w >= 0
  {
    var h := w / 2;
    Sized(r, n) &&
    (forall i {:trigger r.data[Wrap(i, n)]} :: t - n <= i < t ==> r.data[Wrap(i, n)] == Hist(xs, i)) &&
    r.step == Run(xs, t - h, t) - Run(xs, t - 2 * h - 1, t - h - 1) &&
    r.sum[Wrap(t - 1, n)] == Padded(xs, t, h, 2 * h)
  }

  /** A run that ends before the first push is 0. */
  lemma {:induction false} RunBeforeStart(xs: seq<int>, a: int, b: int)
    requires b <= 0
    ensures Run(xs, a, b) == 0
    decreases b - a
  {
    if b > a {
      RunBeforeStart(xs, a, b - 1);
    }
  }

  /** A run splits off its first value. */
  lemma {:induction false} RunFront(xs: seq<int>, a: int, b: int)
    requires a < b
    ensures Run(xs, a, b) == Hist(xs, a) + Run(xs, a + 1, b)
    decreases b - a
  {
    if b - 1 > a {
      RunFront(xs, a, b - 1);
    }
  }

  /** Moving a run one value on adds its new last value and drops its old first one. */
  lemma RunSlide(xs: seq<int>, a: int, b: int)
    requires a <= b
    ensures Run(xs, a + 1, b + 1) == Run(xs, a, b) + Hist(xs, b) - Hist(xs, a)
  {
    RunFront(xs, a, b + 1);
  }

  /** The weighted window before the first push is 0. */
  lemma {:induction false} PaddedBeforeStart(xs: seq<int>, h: int, m: nat)
    ensures Padded(xs, 0, h, m) == 0
  {
    if m > 0 {
      PaddedBeforeStart(xs, h, m - 1);
    }
  }

  /** While the weights rise, one more push changes the first `m` terms by a run less `m` times a value. */
  lemma {:induction false} PaddedRising(xs: seq<int>, t: int, h: int, m: nat)
    requires m <= h
    ensures Padded(xs, t, h, m) - Padded(xs, t - 1, h, m) == Run(xs, t - m, t) - m * Hist(xs, t - 1 - m)
  {
    if m > 0 {
      PaddedRising(xs, t, h, m - 1);
      var x, y := Hist(xs, t - m), Hist(xs, t - 1 - m);
      assert Padded(xs, t, h, m) == Padded(xs, t, h, m - 1) + m * x;
      assert Padded(xs, t - 1, h, m) == Padded(xs, t - 1, h, m - 1) + m * y;
      RunFront(xs, t - m, t);
      assert m * x == (m - 1) * x + x;
    }
  }

  /** Past the peak, the change is the rising run less the falling run and a multiple of one value. */
  lemma {:induction false} PaddedFalling(xs: seq<int>, t: int, h: int, m: nat)
    requires 1 <= h && h + 1 <= m <= 2 * h
    ensures Padded(xs, t, h, m) - Padded(xs, t - 1, h, m)
         == Run(xs, t - h, t) - Run(xs, t - m, t - h - 1) - (2 * h - m + 1) * Hist(xs, t - 1 - m)
  {
    var x, y := Hist(xs, t - m), Hist(xs, t - 1 - m);
    assert Padded(xs, t, h, m) == Padded(xs, t, h, m - 1) + Weight(m - 1, h) * x;
    assert Padded(xs, t - 1, h, m) == Padded(xs, t - 1, h, m - 1) + Weight(m - 1, h) * y;
    assert Weight(m - 1, h) == 2 * h - m + 1;
    if m == h + 1 {
      PaddedRising(xs, t, h, h);
    } else {
      PaddedFalling(xs, t, h, m - 1);
      RunFront(xs, t - m, t - h - 1);
      assert (2 * h - m + 2) * x == (2 * h - m + 1) * x + x;
    }
  }

  /** One more push adds the new accumulator to the weighted window. */
  lemma PaddedNext(xs: seq<int>, t: int, h: int)
    requires h >= 1
    ensures Padded(xs, t, h, 2 * h) == Padded(xs, t - 1, h, 2 * h) + Run(xs, t - h, t) - Run(xs, t - 2 * h - 1, t - h - 1)
  {
    PaddedFalling(xs, t, h, 2 * h);
    RunFront(xs, t - 2 * h - 1, t - h - 1);
  }

  /** The accumulator the next push computes from the three taps. */
  lemma StreamSlope(xs: seq<int>, t: int, h: int, step: int, a: int, b: int, c: int)
    requires h >= 1
    requires step == Run(xs, t - 1 - h, t - 1) - Run(xs, t - 1 - 2 * h - 1, t - 1 - h - 1)
    requires a == Hist(xs, t - 2 * h - 2) && b == Hist(xs, t - h - 2) && c == Hist(xs, t - h - 1)
    ensures step + (Hist(xs, t - 1) + a - b - c) == Run(xs, t - h, t) - Run(xs, t - 2 * h - 1, t - h - 1)
  {
    RunSlide(xs, t - 1 - h, t - 1);
    RunSlide(xs, t - 1 - 2 * h - 1, t - 1 - h - 1);
  }

  /** Two values fewer than `n` apart sit in different slots. */
  lemma SlotsApart(i: int, j: int, n: int)
    requires n > 0 && j < i < j + n
    ensures Wrap(i, n) != Wrap(j, n)
  {
    WrapIsMod(i, n);
    WrapIsMod(j, n);
    if i % n == j % n {
      var qi, qj := i / n, j / n;
      assert i - j == (qi - qj) * n by {
        assert i == qi * n + i % n && j == qj * n + j % n;
      }
      ModUnique(i - j, n, qi - qj, 0);
      ModSmall(i - j, n);
    }
  }

  /** The data slots after push number `t`. */
  lemma StreamData(n: int, w: int, xs: seq<int>, t: nat, r0: Tri, k: int)
    requires 2 <= w < n && w % 2 == 0 && 1 <= t <= |xs| && k == Wrap(t - 1, n) && Scaling(w) != 0.0
    requires StreamState(r0, n, w, xs, t - 1)
    ensures var r := Step(r0, n, k, xs[t - 1], Offsets(w), Scaling(w));
      forall i :: t - n <= i < t ==> r.data[Wrap(i, n)] == Hist(xs, i)
  {
    var r := Step(r0, n, k, xs[t - 1], Offsets(w), Scaling(w));
    forall i | t - n <= i < t
      ensures r.data[Wrap(i, n)] == Hist(xs, i)
    {
      if i < t - 1 {
        SlotsApart(t - 1, i, n);
      }
    }
  }

  /** A tap `o` slots behind the cursor of push number `t` reads the value pushed `-o` pushes before it. */
  lemma TapAt(n: int, w: int, xs: seq<int>, t: int, r0: Tri, k: int, o: int)
    requires 2 <= w < n && k == Wrap(t - 1, n) && -n <= o <= -1
    requires StreamState(r0, n, w, xs, t - 1)
    ensures r0.data[Wrap(k + o, n)] == Hist(xs, t - 1 + o)
  {
    WrapShift(t - 1, o, n);
  }

  /** The accumulator after push number `t`, from the old accumulator and the three taps it reads. */
  lemma StreamTaps(n: int, w: int, xs: seq<int>, t: nat, r0: Tri, k: int)
    requires 2 <= w < n && w % 2 == 0 && 1 <= t <= |xs|
    requires 0 <= k < n
    requires Sized(r0, n)
    requires Scaling(w) != 0.0
    requires var h := w / 2; r0.step == Run(xs, t - 1 - h, t - 1) - Run(xs, t - 1 - 2 * h - 1, t - 1 - h - 1)
    requires r0.data[Wrap(k + Offsets(w)[0], n)] == Hist(xs, t - 1 + Offsets(w)[0])
    requires r0.data[Wrap(k + Offsets(w)[1], n)] == Hist(xs, t - 1 + Offsets(w)[1])
    requires r0.data[Wrap(k + Offsets(w)[2], n)] == Hist(xs, t - 1 + Offsets(w)[2])
    ensures var h := w / 2;
      Step(r0, n, k, xs[t - 1], Offsets(w), Scaling(w)).step == Run(xs, t - h, t) - Run(xs, t - 2 * h - 1, t - h - 1)
  {
    var h, off := w / 2, Offsets(w);
    assert off[0] == -(2 * h + 1) && off[1] == -(h + 1) && off[2] == -h;
    StepAcc(r0, n, k, xs[t - 1], off, Scaling(w));
    assert Hist(xs, t - 1) == xs[t - 1];
    StreamSlope(xs, t, h, r0.step, Hist(xs, t - 1 + off[0]), Hist(xs, t - 1 + off[1]), Hist(xs, t - 1 + off[2]));
  }

  /** The sum written by push number `t`. */
  lemma StreamSum(n: int, w: int, xs: seq<int>, t: nat, r0: Tri, k: int)
    requires 2 <= w < n && w % 2 == 0 && 1 <= t <= |xs| && k == Wrap(t - 1, n) && Scaling(w) != 0.0 && Sized(r0, n)
    requires r0.sum[Wrap(t - 1 - 1, n)] == Padded(xs, t - 1, w / 2, 2 * (w / 2))
    requires var h := w / 2;
      Step(r0, n, k, xs[t - 1], Offsets(w), Scaling(w)).step == Run(xs, t - h, t) - Run(xs, t - 2 * h - 1, t - h - 1)
    ensures Step(r0, n, k, xs[t - 1], Offsets(w), Scaling(w)).sum[k] == Padded(xs, t, w / 2, 2 * (w / 2))
  {
    WrapBack(t - 1, k, n);
    PaddedNext(xs, t, w / 2);
  }

  /** Push number `t` keeps the state `StreamState` describes. */
  lemma StreamStep(n: int, w: int, xs: seq<int>, t: nat, r0: Tri, k: int)
    requires 2 <= w < n && w % 2 == 0 && 1 <= t <= |xs| && k == Wrap(t - 1, n) && Scaling(w) != 0.0
    requires StreamState(r0, n, w, xs, t - 1)
    ensures StreamState(Step(r0, n, k, xs[t - 1], Offsets(w), Scaling(w)), n, w, xs, t)
  {
    StreamData(n, w, xs, t, r0, k);
    StreamAcc(n, w, xs, t, r0, k);
    StreamSum(n, w, xs, t, r0, k);
  }

  /** The accumulator after push number `t`, from the state the earlier pushes left. */
  lemma StreamAcc(n: int, w: int, xs: seq<int>, t: nat, r0: Tri, k: int)
    requires 2 <= w < n && w % 2 == 0 && 1 <= t <= |xs| && k == Wrap(t - 1, n) && Scaling(w) != 0.0
    requires StreamState(r0, n, w, xs, t - 1)
    ensures var h := w / 2;
      Step(r0, n, k, xs[t - 1], Offsets(w), Scaling(w)).step == Run(xs, t - h, t) - Run(xs, t - 2 * h - 1, t - h - 1)
  {
    TapAt(n, w, xs, t, r0, k, Offsets(w)[0]);
    TapAt(n, w, xs, t, r0, k, Offsets(w)[1]);
    TapAt(n, w, xs, t, r0, k, Offsets(w)[2]);
    StreamTaps(n, w, xs, t, r0, k);
  }

  /** Push number `t` of a stream is one loop iteration on slot `Wrap(t - 1, n)`. */
  lemma StreamedNext(n: int, w: int, xs: seq<int>, t: nat)
    requires 2 <= w < n && w % 2 == 0 && 1 <= t <= |xs|
    ensures Scaling(w) != 0.0
    ensures Streamed(n, w, xs, t) == Step(Streamed(n, w, xs, t - 1), n, Wrap(t - 1, n), xs[t - 1], Offsets(w), Scaling(w))
  {
    assert Scaling(w) != 0.0 by { assert w / 2 >= 1; }
  }

  /** Every prefix of a stream leaves the state `StreamState` describes. */
  lemma {:induction false} StreamHistory(n: int, w: int, xs: seq<int>, t: nat)
    requires 2 <= w < n && w % 2 == 0 && t <= |xs|
    ensures StreamState(Streamed(n, w, xs, t), n, w, xs, t)
  {
    var h := w / 2;
    if t == 0 {
      RunBeforeStart(xs, -h, 0);
      RunBeforeStart(xs, -2 * h - 1, -h - 1);
      PaddedBeforeStart(xs, h, 2 * h);
    } else {
      StreamHistory(n, w, xs, t - 1);
      StreamedNext(n, w, xs, t);
      StreamStep(n, w, xs, t, Streamed(n, w, xs, t - 1), Wrap(t - 1, n));
    }
  }

  /** Inside the stream the padded window is the plain one, cut to the values pushed so far. */
  lemma {:induction false} PaddedWeighted(xs: seq<int>, t: int, h: int, m: nat)
    requires 0 <= t <= |xs|
    ensures Padded(xs, t, h, m) == Weighted(xs, t, h, if m < t then m else t)
  {
    if m > 0 {
      PaddedWeighted(xs, t, h, m - 1);
      if m > t {
        assert Hist(xs, t - m) == 0;
      }
    }
  }

  /** The slot a step writes holds its sum over the scaling factor. */
  lemma StepScaled(r0: Tri, n: int, k: int, value: int, off: seq<int>, f: real)
    requires 0 <= k < n && Sized(r0, n) && |off| == 3 && f != 0.0
    ensures var r := Step(r0, n, k, value, off, f); r.scaled[k] == r.sum[k] as real / f
  {
  }

  /** The latest sum and scaled output of a stream, before and after the first push. */
  lemma StreamLatest(n: int, w: int, xs: seq<int>, t: nat)
    requires 2 <= w < n && w % 2 == 0 && t <= |xs|
    ensures Scaling(w) != 0.0
    ensures var r, k := Streamed(n, w, xs, t), Wrap(t - 1, n);
      r.sum[k] == Padded(xs, t, w / 2, 2 * (w / 2)) && r.scaled[k] == r.sum[k] as real / Scaling(w)
  {
    assert Scaling(w) != 0.0 by { assert w / 2 >= 1; }
    StreamHistory(n, w, xs, t);
    if t > 0 {
      StreamedNext(n, w, xs, t);
      StepScaled(Streamed(n, w, xs, t - 1), n, Wrap(t - 1, n), xs[t - 1], Offsets(w), Scaling(w));
    } else {
      PaddedBeforeStart(xs, w / 2, 2 * (w / 2));
    }
  }

  /**
   * For any stream `xs` pushed from clean with an even window `2 <= W < n`,
   * the sum the latest push wrote is `Σ_{j < min(W, t)} Weight(j, W / 2) *
   * xs[t - 1 - j]`: the last `W` values, weighted `1, 2, …, h, h, …, 2, 1`
   * from the newest, and the scaled output there is that sum over `Scaling(W)`.
   */
  lemma WeightedWindow(n: int, w: int, xs: seq<int>, t: nat)
    requires 2 <= w < n && w % 2 == 0 && t <= |xs|
    ensures Scaling(w) != 0.0
    ensures var r, k, m := Streamed(n, w, xs, t), (t - 1) % n, if w < t then w else t;
      r.sum[k] == Weighted(xs, t, w / 2, m) &&
      r.scaled[k] == Weighted(xs, t, w / 2, m) as real / Scaling(w)
  {
    var h := w / 2;
    assert 2 * h == w;
    StreamLatest(n, w, xs, t);
    PaddedWeighted(xs, t, h, 2 * h);
    WrapIsMod(t - 1, n);
  }

  /**
   * A `pushData(v, L)` after the first `t` values of a stream is the same as
   * pushing the next `L` values one at a time, when those are all `v`.
   */
  lemma {:induction false} StreamRun(n: int, off: seq<int>, f: real, xs: seq<int>, t: nat, v: int, len: nat)
    requires n > 0 && |off| == 3 && f != 0.0 && t + len <= |xs|
    requires forall i :: t <= i < t + len ==> xs[i] == v
    ensures Pushed(Stream(n, off, f, xs, t), n, t, v, len, off, f) == Stream(n, off, f, xs, t + len)
    decreases len
  {
    if len > 0 {
      StreamRun(n, off, f, xs, t, v, len - 1);
      StreamRunStep(n, off, f, xs, t, v, len);
    }
  }

  /** The inductive step of `StreamRun`: one more value `v` on both sides. */
  lemma StreamRunStep(n: int, off: seq<int>, f: real, xs: seq<int>, t: nat, v: int, len: nat)
    requires n > 0 && |off| == 3 && f != 0.0 && t + len <= |xs|
    requires len >= 1 && xs[t + len - 1] == v
    requires Pushed(Stream(n, off, f, xs, t), n, t, v, len - 1, off, f) == Stream(n, off, f, xs, t + (len - 1))
    ensures Pushed(Stream(n, off, f, xs, t), n, t, v, len, off, f) == Stream(n, off, f, xs, t + len)
  {
    PushedLast(Stream(n, off, f, xs, t), Stream(n, off, f, xs, t + len - 1), n, t, v, len, Wrap(t + len - 1, n), off, f);
  }

  /** The last iteration of a push of `count >= 1` values, when the first `count - 1` gave `b`. */
  lemma PushedLast(r0: Tri, b: Tri, n: int, p: int, value: int, count: nat, k: int, off: seq<int>, f: real)
    requires n > 0 && Sized(r0, n) && |off| == 3 && f != 0.0 && count >= 1
    requires Pushed(r0, n, p, value, count - 1, off, f) == b
    requires k == Wrap(p + count - 1, n)
    ensures Sized(b, n) && 0 <= k < n
    ensures Pushed(r0, n, p, value, count, off, f) == Step(b, n, k, value, off, f)
  {
  }

  class TriangularAverage {
    const iSize: int
    const vecData: array<int>
    const vecSum: array<int>
    const vecSumScaled: array<real>
    const vecOffset: array<int>
    var iWindowSize: int
    var iStep: int
    var fScalingFactor: real
    var ptrFill: int
    var ptrRead: int

    /** Every object the filter owns. */
    ghost function Repr(): set<object> {
      {this, vecData, vecSum, vecSumScaled, vecOffset}
    }

    /** The arrays have their sizes and are distinct. */
    ghost predicate Allocated() {
      iSize >= 1 &&
      vecData.Length == iSize && vecSum.Length == iSize && vecSumScaled.Length == iSize &&
      vecOffset.Length == 3 &&
      vecData != vecSum && vecData != vecOffset && vecSum != vecOffset
    }

    /** The window, its offsets and its scaling factor agree with each other. */
    ghost predicate Windowed()
      reads this`iWindowSize, this`fScalingFactor, vecOffset
    {
      iWindowSize % 2 == 0 && iWindowSize <= iSize - 1 &&
      vecOffset[..] == Offsets(iWindowSize) && fScalingFactor == Scaling(iWindowSize)
    }

    /** Besides, the window is consistent and the cursors are in range. */
    ghost predicate Valid()
      reads this, vecOffset
    {
      Allocated() && Windowed() && 0 <= ptrFill < iSize && 0 <= ptrRead <= iSize
    }

    /** The arrays and the accumulator, as values. */
    ghost function State(): Tri
      reads this, vecData, vecSum, vecSumScaled
    {
      Tri(vecData[..], vecSum[..], vecSumScaled[..], iStep)
    }

    /**
     * `init(size, windowSize)`: allocate the arrays, take `windowSize` (or,
     * when it is 0, the default window) and clean.
     */
    constructor (size: int, windowSize: int)
      requires size >= 1
      ensures Valid() && iSize == size
      ensures fresh(vecData) && fresh(vecSum) && fresh(vecSumScaled) && fresh(vecOffset)
      ensures iWindowSize == ClampedWindow(if windowSize != 0 then windowSize else DefaultWindow(size), size)
      ensures State() == Cleaned(size) && ptrFill == 0 && ptrRead == 0
    {
      iSize := size;
      vecData := new int[size];
      vecSum := new int[size];
      vecSumScaled := new real[size];
      vecOffset := new int[3];
      new;
      if windowSize != 0 {
        SetWindowSize(windowSize);
      } else {
        ResetWindowSize();
      }
      Clean();
    }

    /** `resetWindowSize`: the default window, just below the capacity. */
    method ResetWindowSize()
      requires Allocated()
      modifies this, vecData, vecSum, vecSumScaled, vecOffset
      ensures Valid() && iWindowSize == ClampedWindow(DefaultWindow(iSize), iSize)
      ensures State() == Cleaned(iSize) && ptrFill == 0 && ptrRead == 0
    {
      SetWindowSize(DefaultWindow(iSize));
    }

    /** `getWindowSize`. */
    method GetWindowSize() returns (w: int)
      requires Valid()
      ensures w == iWindowSize && w % 2 == 0 && w < iSize
    {
      w := iWindowSize;
    }

    /**
     * `setWindowSize(size)`: clamp the window below the capacity and down to
     * an even number, derive the tap offsets and the scaling factor, clean.
     */
    method SetWindowSize(size: int)
      requires Allocated()
      modifies this, vecData, vecSum, vecSumScaled, vecOffset
      ensures Valid() && iWindowSize == ClampedWindow(size, iSize)
      ensures vecOffset[..] == [-(iWindowSize + 1), -(iWindowSize / 2 + 1), -(iWindowSize / 2)]
      ensures State() == Cleaned(iSize) && ptrFill == 0 && ptrRead == 0
    {
      var s := size;
      if s >= iSize {
        s := iSize - 1;
      }
      if s % 2 != 0 {
        s := s - 1;
      }
      iWindowSize := s;

      vecOffset[0] := -(s + 1);
      vecOffset[1] := -(s / 2 + 1);
      vecOffset[2] := vecOffset[1] + 1;

      s := s / 2;
      fScalingFactor := (1.0 + s as real) * s as real;

      Clean();
    }

    /** `clean`: zero the arrays, the accumulator and both cursors. */
    method Clean()
      requires Allocated()
      modifies this`iStep, this`ptrFill, this`ptrRead, vecData, vecSum, vecSumScaled
      ensures State() == Cleaned(iSize) && ptrFill == 0 && ptrRead == 0
    {
      for i := 0 to iSize
        invariant forall k :: 0 <= k < i ==> vecData[k] == 0 && vecSum[k] == 0 && vecSumScaled[k] == 0.0
      {
        vecData[i] := 0;
        vecSum[i] := 0;
        vecSumScaled[i] := 0.0;
      }
      iStep := 0;
      ptrFill := 0;
      ptrRead := 0;
      assert State() == Cleaned(iSize);
    }

    /** `reduce(position)`: the slot congruent to `position`. */
    method Reduce(position: int) returns (p: int)
      requires Allocated()
      ensures 0 <= p < iSize && p == position % iSize
    {
      p := position;
      while p < 0
        invariant p % iSize == position % iSize
        decreases -p
      {
        ModAddMultiple(p, 1, iSize);
        p := p + iSize;
      }
      while p >= iSize
        invariant p >= 0 && p % iSize == position % iSize
        decreases p
      {
        ModAddMultiple(p - iSize, 1, iSize);
        p := p - iSize;
      }
      ModSmall(p, iSize);
    }

    /** `getAbsPos(position)`: `position` reduced to a slot. */
    method GetAbsPos(position: int) returns (p: int)
      requires Allocated()
      ensures 0 <= p < iSize && p == position % iSize
    {
      p := Reduce(position);
    }

    /** `getRelPos(position)`: the slot `position` steps from the fill cursor. */
    method GetRelPos(position: int) returns (p: int)
      requires Allocated()
      ensures 0 <= p < iSize && p == (position + ptrFill) % iSize
    {
      p := GetAbsPos(position + ptrFill);
    }

    /** The body of the `pushData` loop, at the current (unreduced) fill cursor. */
    method StepAt(value: int)
      requires Allocated() && fScalingFactor != 0.0
      modifies this`iStep, vecData, vecSum, vecSumScaled
      ensures State() == Step(old(State()), iSize, Wrap(ptrFill, iSize), value, vecOffset[..], fScalingFactor)
    {
      ghost var t0 := State();
      var acc := Accumulated(value);
      iStep := acc;
      var here, before := Slots();
      WriteSlot(here, before, value);
      WriteIgnoresStep(t0, iSize, here, value, acc, fScalingFactor);
    }

    /** The accumulator the loop body computes from the three taps. */
    method Accumulated(value: int) returns (acc: int)
      requires Allocated()
      ensures acc == Acc(State(), iSize, Wrap(ptrFill, iSize), value, vecOffset[..])
    {
      ghost var k := Wrap(ptrFill, iSize);
      var a := GetRelPos(vecOffset[0]);
      var b := GetRelPos(vecOffset[1]);
      var c := GetRelPos(vecOffset[2]);
      RelPos(ptrFill, k, vecOffset[0], a, iSize);
      RelPos(ptrFill, k, vecOffset[1], b, iSize);
      RelPos(ptrFill, k, vecOffset[2], c, iSize);
      acc := iStep + (value + vecData[a] - vecData[b] - vecData[c]);
    }

    /** The slot under the fill cursor and the one before it. */
    method Slots() returns (here: int, before: int)
      requires Allocated()
      ensures here == Wrap(ptrFill, iSize) && before == Wrap(here - 1, iSize)
    {
      ghost var k := Wrap(ptrFill, iSize);
      here := GetRelPos(0);
      RelPos(ptrFill, k, 0, here, iSize);
      before := GetRelPos(-1);
      RelPos(ptrFill, k, -1, before, iSize);
    }

    /** The writes of one `pushData` iteration, on slot `here`. */
    method WriteSlot(here: int, before: int, value: int)
      requires Allocated() && fScalingFactor != 0.0 && 0 <= here < iSize && before == Wrap(here - 1, iSize)
      modifies vecData, vecSum, vecSumScaled
      ensures State() == Write(old(State()), iSize, here, value, iStep, fScalingFactor)
    {
      vecData[here] := value;
      vecSum[here] := vecSum[before] + iStep;
      vecSumScaled[here] := vecSum[here] as real / fScalingFactor;
    }

    /**
     * The loop of `pushData`: `length` iterations, leaving the fill cursor
     * unreduced `length` slots further on.
     */
    method Fill(value: int, length: nat)
      requires Allocated() && fScalingFactor != 0.0
      modifies this`iStep, this`ptrFill, vecData, vecSum, vecSumScaled
      ensures State() == Pushed(old(State()), iSize, old(ptrFill), value, length, vecOffset[..], fScalingFactor)
      ensures ptrFill == old(ptrFill) + length
    {
      ghost var t0, p0 := State(), ptrFill;
      ghost var done: nat := 0;
      var target := ptrFill + length;
      while ptrFill < target
        invariant ptrFill == p0 + done <= target
        invariant State() == Pushed(t0, iSize, p0, value, done, vecOffset[..], fScalingFactor)
      {
        StepAt(value);
        PushedNext(t0, iSize, p0, value, done, ptrFill, vecOffset[..], fScalingFactor);
        ptrFill := ptrFill + 1;
        done := done + 1;
      }
      assert done == length;
    }

    /**
     * `pushData(value, length)`: a length below 1 changes nothing; otherwise
     * `length` loop iterations from the fill cursor, which ends up `length`
     * slots further on.
     */
    method PushData(value: int, length: int)
      requires Valid() && fScalingFactor != 0.0
      modifies this`iStep, this`ptrFill, vecData, vecSum, vecSumScaled
      ensures Valid()
      ensures length < 1 ==> State() == old(State()) && ptrFill == old(ptrFill)
      ensures length >= 1 ==>
        State() == Pushed(old(State()), iSize, old(ptrFill), value, length, Offsets(iWindowSize), fScalingFactor) &&
        ptrFill == (old(ptrFill) + length) % iSize
    {
      if length < 1 {
        return;
      }
      Fill(value, length);
      ptrFill := ptrFill % iSize;
    }

    /**
     * `popData`: wrap the read cursor from `iSize` to 0, return the scaled
     * value under it and advance it.
     */
    method PopData() returns (r: real)
      requires Valid()
      modifies this`ptrRead
      ensures Valid()
      ensures r == vecSumScaled[if old(ptrRead) == iSize then 0 else old(ptrRead)]
      ensures ptrRead == (if old(ptrRead) == iSize then 0 else old(ptrRead)) + 1
    {
      if ptrRead == iSize {
        ptrRead := 0;
      }
      r := vecSumScaled[ptrRead];
      ptrRead := ptrRead + 1;
    }

    /** `readData(offset)`: the scaled value `offset` slots from the read cursor. */
    method ReadData(offset: int) returns (r: real)
      requires Valid()
      ensures r == vecSumScaled[(ptrRead + offset) % iSize]
    {
      var position := Reduce(ptrRead + offset);
      r := vecSumScaled[position];
    }

    /** `resetPointers`: both cursors back to 0, the arrays untouched. */
    method ResetPointers()
      requires Valid()
      modifies this`ptrFill, this`ptrRead
      ensures Valid() && ptrFill == 0 && ptrRead == 0
    {
      ptrFill := 0;
      ptrRead := 0;
    }
  }

  /** The slot `getRelPos(o)` computes, in terms of the reduced cursor `k`. */
  lemma RelPos(ptr: int, k: int, o: int, slot: int, n: int)
    requires n > 0 && k == Wrap(ptr, n) && slot == (o + ptr) % n
    ensures slot == Wrap(k + o, n)
  {
    WrapShift(ptr, o, n);
    WrapIsMod(ptr + o, n);
  }

  /** The writes of an iteration do not read the old accumulator. */
  lemma WriteIgnoresStep(t: Tri, n: int, k: int, value: int, step: int, f: real)
    requires 0 <= k < n && Sized(t, n) && f != 0.0
    ensures Write(t.(step := step), n, k, value, step, f) == Write(t, n, k, value, step, f)
  {
  }

  /** One more loop iteration, with the cursor `q == p + done` named. */
  lemma PushedNext(t: Tri, n: int, p: int, value: int, done: nat, q: int, off: seq<int>, f: real)
    requires n > 0 && Sized(t, n) && |off| == 3 && f != 0.0 && q == p + done
    ensures Pushed(t, n, p, value, done + 1, off, f) == Step(Pushed(t, n, p, value, done, off, f), n, Wrap(q, n), value, off, f)
  {
  }

  /**
   * The window `resetWindowSize` asks for: `iSize * 0.95` truncated to an
   * integer, computed here exactly.
   */
  function DefaultWindow(size: int): (w: int)
    requires size >= 0
    ensures 0 <= w <= size && 20 * w <= 19 * size < 20 * (w + 1)
  {
    (size as real * 0.95).Floor
  }

  /** Filter `f` and each of its arrays are recorded in `m` as belonging to `t`. */
  ghost predicate Tagged(m: map<object, (int, int)>, f: TriangularAverage, t: (int, int)) {
    f in m && m[f] == t && f.vecData in m && m[f.vecData] == t && f.vecSum in m && m[f.vecSum] == t &&
    f.vecSumScaled in m && m[f.vecSumScaled] == t && f.vecOffset in m && m[f.vecOffset] == t
  }

  /** `m` with filter `f` and each of its arrays recorded as belonging to `t`. */
  ghost function Tag(m: map<object, (int, int)>, f: TriangularAverage, t: (int, int)): (m': map<object, (int, int)>)
    ensures Tagged(m', f, t)
    ensures forall o :: o in m && o !in f.Repr() ==> o in m' && m'[o] == m[o]
  {
    m[f := t][f.vecData := t][f.vecSum := t][f.vecSumScaled := t][f.vecOffset := t]
  }

  /** Tagging a filter whose objects are all new keeps every earlier tag. */
  lemma TagKept(m: map<object, (int, int)>, g: TriangularAverage, u: (int, int), f: TriangularAverage, t: (int, int))
    requires Tagged(m, g, u) && g.Repr() !! f.Repr()
    ensures Tagged(Tag(m, f, t), g, u)
  {
  }
}
