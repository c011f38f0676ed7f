/**
 * The geometry steps of `update_data`, shared by the nine-, five- and
 * N-source panners: the spacing clamp, the angle layout of the sources and
 * the normalisation of the attenuations. The trigonometry that turns angles
 * into distances, delays and attenuations is not modelled; the raw delays
 * and attenuations it produces are inputs.
 */
module Geometry {

  datatype Option<T> = None | Some(value: T)

  /**
   * The angle between neighbouring sources, as far as the clamp decides it:
   * a fixed turn, `2 * asin(ratio)`, or a value the floating-point code
   * leaves as NaN or infinity (a division by a zero radius).
   */
  datatype Spacing = HalfTurn | FullTurn | Arc(ratio: real) | Undefined

  /** A clamp's outcome: the player distance it leaves and the spacing. */
  datatype Clamped = Clamped(pdist: real, spacing: Spacing)

  // ---------------------------------------------------------------------
  // Spacing clamps
  // ---------------------------------------------------------------------

  /** The radius `pan.hpp` works with: a zero radius becomes 0.01. */
  function BaseRadius(r: real): (r': real)
    ensures r' != 0.0
    ensures r != 0.0 ==> r' == r
  {
    if r == 0.0 then 0.01 else r
  }

  /**
   * `pan.hpp`'s clamp: a spacing wider than the diameter gives a half turn,
   * otherwise `asin` of the spacing over the diameter; the player distance
   * is left as it is.
   */
  function BaseClamp(r: real, pdist: real): (c: Clamped)
  {
    var r' := BaseRadius(r);
    Clamped(pdist, if pdist > 2.0 * r' then HalfTurn else Arc(pdist / (2.0 * r')))
  }

  /**
   * The nine-source clamp: a spacing wider than the diameter is cut to the
   * diameter and the angle becomes a full turn.
   */
  function NineClamp(r: real, pdist: real): (c: Clamped)
  {
    if pdist > 2.0 * r then Clamped(2.0 * r, FullTurn)
    else if r == 0.0 then Clamped(pdist, Undefined)
    else Clamped(pdist, Arc(pdist / (2.0 * r)))
  }

  /**
   * The five-source clamp: a spacing wider than the diameter is replaced by
   * the radius (not the diameter), and the angle is always `2 * asin`.
   */
  function FiveClamp(r: real, pdist: real): (c: Clamped)
  {
    var p := if pdist > 2.0 * r then r else pdist;
    if r == 0.0 then Clamped(p, Undefined) else Clamped(p, Arc(p / (2.0 * r)))
  }

  /** `asin`'s argument is at most 1 whenever a clamp hands it over with a positive radius. */
  predicate ArcInDomain(c: Clamped) {
    c.spacing.Arc? ==> c.spacing.ratio <= 1.0
  }

  lemma BaseClampDomain(r: real, pdist: real)
    requires r > 0.0
    ensures ArcInDomain(BaseClamp(r, pdist))
    ensures BaseClamp(r, pdist).spacing.HalfTurn? <==> pdist > 2.0 * r
  {
    if pdist <= 2.0 * r {
      RatioAtMostOne(pdist, 2.0 * r);
    }
  }

  lemma NineClampDomain(r: real, pdist: real)
    requires r > 0.0
    ensures ArcInDomain(NineClamp(r, pdist)) && NineClamp(r, pdist).pdist <= 2.0 * r
    ensures NineClamp(r, pdist).spacing.FullTurn? <==> pdist > 2.0 * r
    ensures pdist <= 2.0 * r ==> NineClamp(r, pdist).pdist == pdist
  {
    if pdist <= 2.0 * r {
      RatioAtMostOne(pdist, 2.0 * r);
    }
  }

  /**
   * After the five-source clamp the spacing is at most the diameter; an
   * oversize spacing comes out as the radius, so the angle is `2 * asin(1/2)`.
   */
  lemma FiveClampDomain(r: real, pdist: real)
    requires r > 0.0
    ensures ArcInDomain(FiveClamp(r, pdist)) && FiveClamp(r, pdist).pdist <= 2.0 * r
    ensures pdist > 2.0 * r ==> FiveClamp(r, pdist) == Clamped(r, Arc(0.5))
    ensures pdist <= 2.0 * r ==> FiveClamp(r, pdist).pdist == pdist
  {
    var p := FiveClamp(r, pdist).pdist;
    RatioAtMostOne(p, 2.0 * r);
    if pdist > 2.0 * r {
      assert r / (2.0 * r) == 0.5;
    }
  }

  lemma RatioAtMostOne(x: real, d: real)
    requires d > 0.0 && x <= d
    ensures x / d <= 1.0
  {
  }

  // ---------------------------------------------------------------------
  // Angle layout
  // ---------------------------------------------------------------------

  /**
   * The angle the symmetric layout gives source `j` of `count` before the
   * displacement, as a multiple of the spacing `alpha`, or `None` when the
   * loops never assign it. An even count places the sources at half-integer
   * multiples on both sides of the centre; an odd count puts the middle one
   * at 0 and the one `i` places away at `i * alpha` on the right and
   * `-(i * alpha)` on the left, for `1 <= i < limit`.
   */
  function Placed(count: int, limit: int, alpha: real, j: int): Option<real>
    requires count >= 1 && 0 <= j < count
  {
    var h := count / 2;
    if count % 2 == 0 then
      if j >= h then Some(HalfStep(j - h, alpha)) else Some(-HalfStep(h - 1 - j, alpha))
    else
      var c := (count - 1) / 2;
      if j == c then Some(0.0)
      else if j > c && j - c < limit then Some(Step(j - c, alpha))
      else if j < c && c - j < limit then Some(-Step(c - j, alpha))
      else None
  }

  /** `(0.5 + i) * alpha`, the even layout's angle `i` places out. */
  function HalfStep(i: int, alpha: real): real {
    (0.5 + i as real) * alpha
  }

  /** `alpha * i`, the odd layout's angle `i` places out. */
  function Step(i: int, alpha: real): real {
    alpha * i as real
  }

  lemma PlacedEven(count: int, limit: int, alpha: real, i: int)
    requires count >= 2 && count % 2 == 0 && 0 <= i < count / 2
    ensures Placed(count, limit, alpha, count / 2 + i) == Some(HalfStep(i, alpha))
    ensures Placed(count, limit, alpha, count / 2 - (1 + i)) == Some(-HalfStep(i, alpha))
  {
  }

  lemma PlacedOdd(count: int, limit: int, alpha: real, i: int)
    requires count >= 1 && count % 2 == 1 && 1 <= i < limit <= (count + 1) / 2
    ensures Placed(count, limit, alpha, (count - 1) / 2) == Some(0.0)
    ensures Placed(count, limit, alpha, (count - 1) / 2 + i) == Some(Step(i, alpha))
    ensures Placed(count, limit, alpha, (count - 1) / 2 - i) == Some(-Step(i, alpha))
  {
  }

  lemma PlacedOddOutside(count: int, limit: int, alpha: real, j: int)
    requires count >= 1 && count % 2 == 1 && 0 <= j < count
    requires j != (count - 1) / 2 && (j - (count - 1) / 2 >= limit || (count - 1) / 2 - j >= limit)
    ensures Placed(count, limit, alpha, j) == None
  {
  }

  /** The displacement: every assigned angle is moved by `shift`. */
  function Shifted(a: Option<real>, shift: real): Option<real> {
    if a.Some? then Some(a.value + shift) else None
  }

  /** The whole layout after the displacement. */
  function Layouted(count: int, limit: int, alpha: real, shift: real): (s: seq<Option<real>>)
    requires count >= 1
    ensures |s| == count
  {
    seq(count, j requires 0 <= j < count => Shifted(Placed(count, limit, alpha, j), shift))
  }

  /**
   * The layout loops of `update_data`: the even or odd placement, then the
   * displacement `shift` (radians in the nine- and five-source panners,
   * degrees converted to radians in `pan.hpp`, left to the caller here).
   * `limit` is the odd loop's bound: `count / 2` in `pan.hpp`,
   * `(count + 1) / 2` in the nine- and five-source files. An unassigned
   * entry is `None`.
   */
  method Layout(count: int, limit: int, alpha: real, shift: real) returns (angles: array<Option<real>>)
    requires count >= 1 && limit <= (count + 1) / 2
    ensures fresh(angles) && angles[..] == Layouted(count, limit, alpha, shift)
  {
    angles := new Option<real>[count](_ => None);
    if count % 2 == 0 {
      PlaceEven(angles, limit, alpha);
    } else {
      PlaceOdd(angles, limit, alpha);
    }
    Displace(angles, shift);
  }

  /** The even placement: `h + i` and its mirror `h - 1 - i` for every `i < h`. */
  method PlaceEven(angles: array<Option<real>>, limit: int, alpha: real)
    requires angles.Length >= 2 && angles.Length % 2 == 0
    requires forall j :: 0 <= j < angles.Length ==> angles[j] == None
    modifies angles
    ensures forall j :: 0 <= j < angles.Length ==> angles[j] == Placed(angles.Length, limit, alpha, j)
  {
    var count := angles.Length;
    var h := count / 2;
    var i := 0;
    while i < h
      invariant 0 <= i <= h
      invariant forall j :: h - i <= j < h + i ==> angles[j] == Placed(count, limit, alpha, j)
      invariant forall j :: 0 <= j < h - i || h + i <= j < count ==> angles[j] == None
    {
      PlacedEven(count, limit, alpha, i);
      angles[h + i] := Some((0.5 + i as real) * alpha);
      assert angles[h + i] == Some(HalfStep(i, alpha));
      angles[h - (1 + i)] := Some(-angles[h + i].value);
      i := i + 1;
    }
  }

  /**
   * The odd placement: the centre at 0, then `c + i` and its mirror `c - i`
   * for `1 <= i < limit`; the entries further out stay unassigned.
   */
  method PlaceOdd(angles: array<Option<real>>, limit: int, alpha: real)
    requires angles.Length % 2 == 1 && limit <= (angles.Length + 1) / 2
    requires forall j :: 0 <= j < angles.Length ==> angles[j] == None
    modifies angles
    ensures forall j :: 0 <= j < angles.Length ==> angles[j] == Placed(angles.Length, limit, alpha, j)
  {
    var count := angles.Length;
    var c := (count - 1) / 2;
    angles[c] := Some(0.0);
    var i := 1;
    while i < limit
      invariant 1 <= i && (limit >= 1 ==> i <= limit) && c + i <= count && c - i >= -1
      invariant forall j :: c - i < j < c + i ==> angles[j] == Placed(count, limit, alpha, j)
      invariant forall j :: 0 <= j <= c - i || c + i <= j < count ==> angles[j] == None
    {
      PlacedOdd(count, limit, alpha, i);
      angles[c + i] := Some(alpha * i as real);
      assert angles[c + i] == Some(Step(i, alpha));
      angles[c - i] := Some(-angles[c + i].value);
      i := i + 1;
    }
    forall j | 0 <= j <= c - i || c + i <= j < count
      ensures Placed(count, limit, alpha, j) == None
    {
      PlacedOddOutside(count, limit, alpha, j);
    }
  }

  /** The displacement loop: every assigned angle is moved by `shift`. */
  method Displace(angles: array<Option<real>>, shift: real)
    modifies angles
    ensures forall j :: 0 <= j < angles.Length ==> angles[j] == Shifted(old(angles[j]), shift)
  {
    for i := 0 to angles.Length
      invariant forall j :: 0 <= j < angles.Length ==>
        angles[j] == if j < i then Shifted(old(angles[j]), shift) else old(angles[j])
    {
      if angles[i].Some? {
        angles[i] := Some(angles[i].value + shift);
      }
    }
  }

  /**
   * With the bound `(count + 1) / 2` every source gets an angle, the centre
   * of an odd layout sits at the displacement, and the layout is mirror
   * symmetric about it.
   */
  lemma FullLayout(count: int, alpha: real, shift: real)
    requires count >= 1
    ensures var s := Layouted(count, (count + 1) / 2, alpha, shift);
      (forall j :: 0 <= j < count ==> s[j].Some?) &&
      (forall j :: 0 <= j < count ==> s[j].value + s[count - 1 - j].value == 2.0 * shift) &&
      (count % 2 == 1 ==> s[(count - 1) / 2] == Some(shift))
  {
    var s := Layouted(count, (count + 1) / 2, alpha, shift);
    forall j | 0 <= j < count
      ensures s[j].Some? && s[j].value + s[count - 1 - j].value == 2.0 * shift
    {
      MirrorPlaced(count, (count + 1) / 2, alpha, j);
    }
  }

  /** Mirror images get opposite angles, and with the full bound every one is assigned. */
  lemma MirrorPlaced(count: int, limit: int, alpha: real, j: int)
    requires count >= 1 && 0 <= j < count && limit == (count + 1) / 2
    ensures Placed(count, limit, alpha, j).Some? && Placed(count, limit, alpha, count - 1 - j).Some?
    ensures Placed(count, limit, alpha, j).value == -Placed(count, limit, alpha, count - 1 - j).value
  {
    var m, h := count - 1 - j, count / 2;
    if count % 2 == 0 {
      if j >= h {
        assert h - 1 - m == j - h;
      } else {
        assert m - h == h - 1 - j;
      }
    } else {
      var c := (count - 1) / 2;
      if j > c {
        assert c - m == j - c;
      } else if j < c {
        assert m - c == c - j;
      }
    }
  }

  /**
   * With `pan.hpp`'s bound `count / 2`, an odd layout of three or more
   * sources leaves exactly the two outermost angles unassigned.
   */
  lemma OuterAnglesUnassigned(count: int, alpha: real, shift: real)
    requires count >= 3 && count % 2 == 1
    ensures var s := Layouted(count, count / 2, alpha, shift);
      s[0] == None && s[count - 1] == None &&
      forall j :: 0 < j < count - 1 ==> s[j].Some?
  {
  }

  /** With an even count both bounds give the same, complete layout. */
  lemma EvenLayoutComplete(count: int, alpha: real, shift: real, j: int)
    requires count >= 2 && count % 2 == 0 && 0 <= j < count
    ensures Layouted(count, count / 2, alpha, shift)[j] == Layouted(count, (count + 1) / 2, alpha, shift)[j]
    ensures Layouted(count, count / 2, alpha, shift)[j].Some?
  {
  }

  // ---------------------------------------------------------------------
  // Normalisation of the attenuations
  // ---------------------------------------------------------------------

  /**
   * The product the per-source loop has built after `n` sources: the running
   * value multiplied by the left, then by the right attenuation of each.
   */
  function Product(l: seq<real>, r: seq<real>, n: nat): real
    requires n <= |l| && n <= |r|
  {
    if n == 0 then 1.0 else Product(l, r, n - 1) * l[n - 1] * r[n - 1]
  }

  /** Every entry multiplied by `k`. */
  function Scaled(xs: seq<real>, k: real): (s: seq<real>)
    ensures |s| == |xs|
  {
    seq(|xs|, i requires 0 <= i < |xs| => xs[i] * k)
  }

  function Power(x: real, n: nat): real {
    if n == 0 then 1.0 else Power(x, n - 1) * x
  }

  /**
   * Scaling both sides by `k` multiplies the product by `k * k` once per
   * source. With `k == 1 / P` for the raw product `P` of `n` sources, as the
   * normalisation chooses it, the normalised product is `P * (1/P^2)^n`,
   * that is `P` to the power `1 - 2n`, and not 1.
   */
  lemma {:induction false} ScaledProduct(l: seq<real>, r: seq<real>, k: real, n: nat)
    requires n <= |l| && n <= |r|
    ensures Product(Scaled(l, k), Scaled(r, k), n) == Power(k * k, n) * Product(l, r, n)
  {
    if n > 0 {
      ScaledProduct(l, r, k, n - 1);
      var sl, sr := Scaled(l, k), Scaled(r, k);
      StepArithmetic(Product(sl, sr, n), Product(sl, sr, n - 1), Power(k * k, n - 1), Product(l, r, n - 1),
        sl[n - 1], sr[n - 1], l[n - 1], r[n - 1], k, Power(k * k, n), Product(l, r, n));
    }
  }

  /** The arithmetic of one induction step of `ScaledProduct`. */
  lemma StepArithmetic(s: real, x: real, q: real, p: real, sa: real, sb: real, a: real, b: real, k: real, q2: real, p2: real)
    requires x == q * p && sa == a * k && sb == b * k && s == x * sa * sb
    requires p2 == p * a * b && q2 == q * (k * k)
    ensures s == q2 * p2
  {
    calc {
      s;
      (q * p) * (a * k) * (b * k);
      (q * (k * k)) * (p * a * b);
    }
  }

  /**
   * Normalising with `k == 1 / P`, the choice of the normalisation, leaves
   * the product at `P` over `P^(2n)`: it is `P^(1 - 2n)`, not 1.
   */
  lemma NormalisedProduct(l: seq<real>, r: seq<real>, n: nat)
    requires n <= |l| && n <= |r|
    ensures var p := Product(l, r, n);
      p != 0.0 ==> Product(Scaled(l, 1.0 / p), Scaled(r, 1.0 / p), n) * Power(p, 2 * n) == p
  {
    var p := Product(l, r, n);
    if p != 0.0 {
      var k := 1.0 / p;
      ScaledProduct(l, r, k, n);
      PowerCancel(k, p, n);
      PowerSquare(p, n);
      NormaliseArithmetic(Product(Scaled(l, k), Scaled(r, k), n), Power(k * k, n), p, Power(p * p, n), Power(p, 2 * n));
      assert Product(Scaled(l, k), Scaled(r, k), n) * Power(p, 2 * n) == p;
    }
  }

  /** Scaling `p` by `q` and then by the inverse `y` of `q` gives back `p`. */
  lemma NormaliseArithmetic(x: real, q: real, p: real, y: real, z: real)
    requires x == q * p && q * y == 1.0 && y == z
    ensures x * z == p
  {
    calc {
      x * z;
      (q * p) * y;
      (q * y) * p;
      p;
    }
  }

  /** `(p^2)^n == p^(2n)`. */
  lemma {:induction false} PowerSquare(p: real, n: nat)
    ensures Power(p * p, n) == Power(p, 2 * n)
  {
    if n > 0 {
      PowerSquare(p, n - 1);
      assert Power(p, 2 * n) == Power(p, 2 * (n - 1)) * p * p by {
        assert 2 * n - 1 - 1 == 2 * (n - 1);
      }
    }
  }

  /** `(k^2)^n * (p^2)^n == 1` when `k` is the inverse of `p`. */
  lemma {:induction false} PowerCancel(k: real, p: real, n: nat)
    requires k * p == 1.0
    ensures Power(k * k, n) * Power(p * p, n) == 1.0
  {
    if n > 0 {
      PowerCancel(k, p, n - 1);
      CancelArithmetic(Power(k * k, n - 1), Power(p * p, n - 1), k, p, Power(k * k, n), Power(p * p, n));
    }
  }

  /** The arithmetic of one induction step of `PowerCancel`. */
  lemma CancelArithmetic(a: real, b: real, k: real, p: real, x: real, y: real)
    requires a * b == 1.0 && k * p == 1.0 && x == a * (k * k) && y == b * (p * p)
    ensures x * y == 1.0
  {
    calc {
      x * y;
      a * (k * k) * (b * (p * p));
      (a * b) * ((k * p) * (k * p));
    }
  }

  /** Scaling by a non-zero factor keeps every ratio between two attenuations. */
  lemma ScaledRatios(xs: seq<real>, ys: seq<real>, k: real, i: int, j: int)
    requires 0 <= i < |xs| && 0 <= j < |ys|
    ensures k != 0.0 && ys[j] != 0.0 ==> Scaled(xs, k)[i] / Scaled(ys, k)[j] == xs[i] / ys[j]
  {
    if k != 0.0 && ys[j] != 0.0 {
      var a, b := xs[i], ys[j];
      assert (a / b) * (b * k) == a * k;
    }
  }

  // ---------------------------------------------------------------------
  // Linear interpolation between neighbouring frames
  // ---------------------------------------------------------------------

  /** C++'s conversion of a float to `int`, which truncates toward zero. */
  function Truncate(x: real): (k: int)
    ensures x >= 0.0 ==> k as real <= x < k as real + 1.0
    ensures x < 0.0 ==> k as real - 1.0 < x <= k as real
  {
    if x >= 0.0 then x.Floor else -((-x).Floor)
  }

  /** A fractional position that is whole gives all the weight to the first frame. */
  lemma WeightsAtWhole(a: real, b: real, t: real)
    requires t == 0.0
    ensures a * (1.0 - t) + b * t == a
  {
  }
}
