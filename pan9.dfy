/**
 * The nine-source panner: nine inputs scattered into a stereo output ring
 * buffer whose size the host's sample rate decides.
 */
module Pan9 {
  import opened Geometry
  import opened ScatterPan

  const Channels := 9

  /**
   * The plugin's construction: nine sources and a buffer of `bufferSize`
   * slots (twice the longest delay the controls allow, computed in floating
   * point from the sample rate and passed in here).
   */
  method Create(bufferSize: nat) returns (p: Panner)
    requires bufferSize > 0
    ensures fresh(p) && p.Valid() && p.count == Channels && p.bufferSize == bufferSize
  {
    p := new Panner(Channels, bufferSize);
  }

  /**
   * `update_data` without its trigonometry: the nine-source clamp, the
   * layout of all nine angles round the centre, moved by `a0`, and the
   * stored delays and normalised attenuations. `alpha` is the spacing angle
   * the clamp's outcome stands for and `delays*`/`raw*` are what the
   * trigonometry derives from the angles.
   */
  method UpdateData(p: Panner, r: real, pdist: real, a0: real, alpha: real,
                    delaysL: seq<int>, delaysR: seq<int>, rawL: seq<real>, rawR: seq<real>)
    returns (clamp: Clamped, angles: array<Option<real>>)
    requires p.Valid() && p.count == Channels
    requires |delaysL| == Channels && |delaysR| == Channels && |rawL| == Channels && |rawR| == Channels
    requires Product(rawL, rawR, Channels) != 0.0
    modifies p.samplesL, p.samplesR, p.attenuationL, p.attenuationR
    ensures clamp == NineClamp(r, pdist)
    ensures fresh(angles) && angles[..] == Layouted(Channels, (Channels + 1) / 2, alpha, a0)
    ensures p.samplesL[..] == delaysL && p.samplesR[..] == delaysR
    ensures p.attenuationL[..] == Scaled(rawL, 1.0 / Product(rawL, rawR, Channels))
    ensures p.attenuationR[..] == Scaled(rawR, 1.0 / Product(rawL, rawR, Channels))
  {
    clamp := NineClamp(r, pdist);
    angles := Layout(Channels, (Channels + 1) / 2, alpha, a0);
    p.SetSources(delaysL, delaysR, rawL, rawR);
  }

  /** All nine angles are assigned, the centre one is `a0`, and the layout is symmetric about it. */
  lemma NineLayout(alpha: real, a0: real)
    ensures var s := Layouted(Channels, (Channels + 1) / 2, alpha, a0);
      (forall j :: 0 <= j < Channels ==> s[j].Some?) && s[4] == Some(a0) &&
      (forall j :: 0 <= j < Channels ==> s[j].value + s[Channels - 1 - j].value == 2.0 * a0)
  {
    FullLayout(Channels, alpha, a0);
  }

  // ---------------------------------------------------------------------
  // getInterpolatedFrame
  // ---------------------------------------------------------------------

  /**
   * `getInterpolatedFrame` as written: `None` (false) past the last frame,
   * the last frame at exactly `nframes - 1`, and otherwise the two
   * neighbouring frames from the truncated position `base`, weighted `frac`
   * and `1 - frac` in that order. A position in `(-1, 0)` truncates to 0
   * with a negative fraction; reading frame 1 then needs a second frame.
   */
  function InterpolatedFrame(source: seq<real>, nframes: int, i: real): (r: Option<real>)
    requires -1.0 < i && nframes <= |source|
    requires i < 0.0 && nframes >= 1 ==> |source| >= 2
    ensures r.None? <==> i > (nframes - 1) as real
    ensures i == (nframes - 1) as real ==> r == Some(source[nframes - 1])
  {
    if i > (nframes - 1) as real then None
    else if i == (nframes - 1) as real then Some(source[nframes - 1])
    else
      var base := Truncate(i);
      var scalar := i - base as real;
      Some(source[base] * scalar + source[base + 1] * (1.0 - scalar))
  }

  /** At a whole frame before the last the function as written returns the next frame. */
  lemma InterpolatedFrameAtWhole(source: seq<real>, nframes: int, k: int)
    requires 0 <= k && k + 1 < nframes <= |source|
    ensures InterpolatedFrame(source, nframes, k as real) == Some(source[k + 1])
  {
    var i := k as real;
    assert i < (nframes - 1) as real && i.Floor == k && i - k as real == 0.0;
    assert !(i > (nframes - 1) as real) && i != (nframes - 1) as real;
    assert InterpolatedFrame(source, nframes, i).value == source[k] * 0.0 + source[k + 1] * (1.0 - 0.0);
    WeightsAtWhole(source[k + 1], source[k], 0.0);
  }

  /** Two frames `0, 1` read at position 0 give 1, where the frame at 0 holds 0. */
  lemma InterpolatedFrameCounterexample()
    ensures InterpolatedFrame([0.0, 1.0], 2, 0.0) == Some(1.0)
  {
    InterpolatedFrameAtWhole([0.0, 1.0], 2, 0);
  }

  /** `getInterpolatedFrame` with the weights the right way round. */
  function InterpolatedFrameFixed(source: seq<real>, nframes: int, i: real): (r: Option<real>)
    requires -1.0 < i && nframes <= |source|
    requires i < 0.0 && nframes >= 1 ==> |source| >= 2
    ensures r.None? <==> i > (nframes - 1) as real
    ensures i == (nframes - 1) as real ==> r == Some(source[nframes - 1])
  {
    if i > (nframes - 1) as real then None
    else if i == (nframes - 1) as real then Some(source[nframes - 1])
    else
      var base := Truncate(i);
      var scalar := i - base as real;
      Some(source[base] * (1.0 - scalar) + source[base + 1] * scalar)
  }

  /**
   * Before the first frame, at `-1 < i < 0`, the position truncates to frame
   * 0 and the function as written extrapolates from frames 0 and 1 with the
   * negative fraction `i`.
   */
  lemma InterpolatedBeforeStart(source: seq<real>, nframes: int, i: real)
    requires -1.0 < i < 0.0 && 1 <= nframes <= |source| && |source| >= 2
    ensures InterpolatedFrame(source, nframes, i) == Some(source[0] * i + source[1] * (1.0 - i))
  {
    assert Truncate(i) == 0;
    assert !(i > (nframes - 1) as real) && i != (nframes - 1) as real;
    assert InterpolatedFrame(source, nframes, i).value == source[0] * (i - 0.0) + source[1] * (1.0 - (i - 0.0));
  }

  /** The same position with the corrected weights. */
  lemma InterpolatedFixedBeforeStart(source: seq<real>, nframes: int, i: real)
    requires -1.0 < i < 0.0 && 1 <= nframes <= |source| && |source| >= 2
    ensures InterpolatedFrameFixed(source, nframes, i) == Some(source[0] * (1.0 - i) + source[1] * i)
  {
    assert Truncate(i) == 0;
    assert !(i > (nframes - 1) as real) && i != (nframes - 1) as real;
    assert InterpolatedFrameFixed(source, nframes, i).value == source[0] * (1.0 - (i - 0.0)) + source[1] * (i - 0.0);
  }

  /** The frames `[2, 4]` read at position `-0.5` give 5 as written. */
  lemma InterpolatedBeforeStartExample()
    ensures InterpolatedFrame([2.0, 4.0], 2, -0.5) == Some(5.0)
  {
    InterpolatedBeforeStart([2.0, 4.0], 2, -0.5);
  }

  /**
   * The corrected interpolation returns the frame itself at every whole
   * position, and in between a value between its two neighbours.
   */
  lemma InterpolatedFrameFixedExact(source: seq<real>, nframes: int, i: real)
    requires 0.0 <= i <= (nframes - 1) as real && nframes <= |source|
    ensures var b := i.Floor;
      (i == b as real ==> InterpolatedFrameFixed(source, nframes, i) == Some(source[b])) &&
      (i < (nframes - 1) as real ==> Between(InterpolatedFrameFixed(source, nframes, i).value, source[b], source[b + 1]))
  {
    var b := i.Floor;
    assert b as real <= i < b as real + 1.0;
    if i == (nframes - 1) as real {
      assert b == nframes - 1;
    } else {
      assert b + 1 < nframes;
      var t := i - b as real;
      assert !(i > (nframes - 1) as real) && i != (nframes - 1) as real;
      assert InterpolatedFrameFixed(source, nframes, i).value == source[b] * (1.0 - t) + source[b + 1] * t;
      ConvexBetween(source[b], source[b + 1], t);
      if i == b as real {
        WeightsAtWhole(source[b], source[b + 1], t);
      }
    }
  }

  /** `v` lies between `a` and `b`, whichever is larger. */
  predicate Between(v: real, a: real, b: real) {
    (a <= v <= b) || (b <= v <= a)
  }

  lemma ConvexBetween(a: real, b: real, t: real)
    requires 0.0 <= t <= 1.0
    ensures Between(a * (1.0 - t) + b * t, a, b)
  {
    if a <= b {
      assert a * (1.0 - t) + b * t == a + (b - a) * t;
      assert (b - a) * t <= b - a;
    } else {
      assert a * (1.0 - t) + b * t == a - (a - b) * t;
      assert (a - b) * t <= a - b;
    }
  }
}
