/** The five-source panner: five inputs and a fixed buffer of 10000 slots per side. */
module Pan5 {
  import opened Geometry
  import opened ScatterPan

  const Count := 5
  const BufferSize := 10000

  /** The plugin's construction: five sources and the fixed buffer size. */
  method Create() returns (p: Panner)
    ensures fresh(p) && p.Valid() && p.count == Count && p.bufferSize == BufferSize
  {
    p := new Panner(Count, BufferSize);
  }

  /**
   * `update_data` without its trigonometry: the five-source clamp, the
   * layout of the five angles moved by `a0`, and the stored delays and
   * normalised attenuations. `alpha` is `2 * asin` of the clamp's ratio and
   * `delays*`/`raw*` are what the trigonometry derives from the angles.
   */
  method UpdateData(p: Panner, r: real, pdist: real, a0: real, alpha: real,
                    delaysL: seq<int>, delaysR: seq<int>, rawL: seq<real>, rawR: seq<real>)
    returns (clamp: Clamped, angles: array<Option<real>>)
    requires p.Valid() && p.count == Count
    requires |delaysL| == Count && |delaysR| == Count && |rawL| == Count && |rawR| == Count
    requires Product(rawL, rawR, Count) != 0.0
    modifies p.samplesL, p.samplesR, p.attenuationL, p.attenuationR
    ensures clamp == FiveClamp(r, pdist)
    ensures fresh(angles) && angles[..] == Layouted(Count, (Count + 1) / 2, alpha, a0)
    ensures p.samplesL[..] == delaysL && p.samplesR[..] == delaysR
    ensures p.attenuationL[..] == Scaled(rawL, 1.0 / Product(rawL, rawR, Count))
    ensures p.attenuationR[..] == Scaled(rawR, 1.0 / Product(rawL, rawR, Count))
  {
    clamp := FiveClamp(r, pdist);
    angles := Layout(Count, (Count + 1) / 2, alpha, a0);
    p.SetSources(delaysL, delaysR, rawL, rawR);
  }

  /** Before the displacement the five angles are `-2a, -a, 0, a, 2a`. */
  lemma FiveLayout(alpha: real)
    ensures Layouted(Count, (Count + 1) / 2, alpha, 0.0) ==
      [Some(-(alpha * 2.0)), Some(-(alpha * 1.0)), Some(0.0), Some(alpha * 1.0), Some(alpha * 2.0)]
  {
    var s := Layouted(Count, (Count + 1) / 2, alpha, 0.0);
    assert s[0] == Some(-Step(2, alpha)) && s[1] == Some(-Step(1, alpha));
    assert s[3] == Some(Step(1, alpha)) && s[4] == Some(Step(2, alpha));
  }
}
