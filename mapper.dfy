/**
 * The parameter mapper of Hardhaq_Optimization_Easy.py: a per-component
 * affine map between physical units and the unit cube, zipped over a
 * bounds table.
 */
module ParameterMapper {
  import opened RealFacts

  /** The physical range (low, high) of one parameter. */
  datatype Bound = Bound(low: real, high: real)

  /** The bounds table, in the order V_rf, V_dc, V_endcap, electrode_spacing, electrode_amplitude, umax, endcap_offset, endcap_rad, endcap_thick, f. */
  const EasyBounds: seq<Bound> := [
    Bound(0.0, 1000.0),
    Bound(0.0, 500.0),
    Bound(0.0, 500.0),
    Bound(0.009, 0.01),
    Bound(0.003, 0.0044),
    Bound(1.0, 1.6),
    Bound(0.005, 0.01),
    Bound(0.005, 0.01),
    Bound(0.0001, 0.001),
    Bound(1e6, 1e8)
  ]

  /** The baseline configuration in physical units, ordered as EasyBounds. */
  const EasyBaseline: seq<real> := [300.0, 50.0, 10.0, 0.009, 0.004, 1.0, 0.005, 0.006, 0.0005, 1e7]

  function Min(a: nat, b: nat): nat {
    if a <= b then a else b
  }

  /** Every bound is a proper interval. */
  predicate ProperBounds(b: seq<Bound>) {
    forall i :: 0 <= i < |b| ==> b[i].low < b[i].high
  }

  /** No bound that `zip` pairs with a component of x has a zero width. */
  predicate NonDegenerate(n: nat, b: seq<Bound>) {
    forall i :: 0 <= i < n && i < |b| ==> b[i].high - b[i].low != 0.0
  }

  /** x lies component-wise within the paired bounds. */
  predicate WithinBounds(x: seq<real>, b: seq<Bound>) {
    forall i :: 0 <= i < |x| && i < |b| ==> b[i].low <= x[i] <= b[i].high
  }

  /** y lies component-wise within [0, 1]. */
  predicate InUnitCube(y: seq<real>) {
    forall i :: 0 <= i < |y| ==> 0.0 <= y[i] <= 1.0
  }

  /** One component of `normalize`: (v - low) / (high - low). */
  function NormalizeOne(v: real, bd: Bound): real
    requires bd.high - bd.low != 0.0
  {
    (v - bd.low) / (bd.high - bd.low)
  }

  /** One component of `denormalize`: low + t * (high - low). */
  function DenormalizeOne(t: real, bd: Bound): real {
    bd.low + t * (bd.high - bd.low)
  }

  /** `normalize`: NormalizeOne over zip(x, bounds). */
  function Normalize(x: seq<real>, b: seq<Bound>): (y: seq<real>)
    requires NonDegenerate(|x|, b)
    ensures |y| == Min(|x|, |b|)
    ensures forall i :: 0 <= i < |y| ==> y[i] == NormalizeOne(x[i], b[i])
  {
    if |x| == 0 || |b| == 0 then []
    else
      assert NonDegenerate(|x[1..]|, b[1..]) by {
        forall i | 0 <= i < |x[1..]| && i < |b[1..]| ensures b[1..][i].high - b[1..][i].low != 0.0 {
          assert b[1..][i] == b[i + 1];
        }
      }
      [NormalizeOne(x[0], b[0])] + Normalize(x[1..], b[1..])
  }

  /** `denormalize`: DenormalizeOne over zip(y, bounds). */
  function Denormalize(y: seq<real>, b: seq<Bound>): (x: seq<real>)
    ensures |x| == Min(|y|, |b|)
    ensures forall i :: 0 <= i < |x| ==> x[i] == DenormalizeOne(y[i], b[i])
  {
    if |y| == 0 || |b| == 0 then []
    else [DenormalizeOne(y[0], b[0])] + Denormalize(y[1..], b[1..])
  }

  /** The two component maps are mutually inverse on a bound of non-zero width. */
  lemma ComponentRoundTrips(v: real, bd: Bound)
    requires bd.high - bd.low != 0.0
    ensures DenormalizeOne(NormalizeOne(v, bd), bd) == v
    ensures NormalizeOne(DenormalizeOne(v, bd), bd) == v
  {
    var w := bd.high - bd.low;
    assert (v - bd.low) / w * w == v - bd.low;
    assert v * w / w == v;
  }

  /** On a proper bound, DenormalizeOne takes [0, 1] into [low, high]. */
  lemma DenormalizeOneInBound(t: real, bd: Bound)
    requires bd.low < bd.high && 0.0 <= t <= 1.0
    ensures bd.low <= DenormalizeOne(t, bd) <= bd.high
  {
    var w := bd.high - bd.low;
    MulNonneg(t, w);
    MulNonneg(1.0 - t, w);
    assert (1.0 - t) * w == w - t * w;
  }

  /** On a proper bound, NormalizeOne takes [low, high] into [0, 1]. */
  lemma NormalizeOneInUnit(v: real, bd: Bound)
    requires bd.low < bd.high && bd.low <= v <= bd.high
    ensures 0.0 <= NormalizeOne(v, bd) <= 1.0
  {
    var w := bd.high - bd.low;
    var t := NormalizeOne(v, bd);
    assert t * w == v - bd.low;
    if t < 0.0 {
      MulPos(-t, w);
    }
    if t > 1.0 {
      MulPos(t - 1.0, w);
      assert (t - 1.0) * w == t * w - w;
    }
  }

  lemma EasyBoundsProper()
    ensures |EasyBounds| == 10 && ProperBounds(EasyBounds)
  {
  }

  lemma EasyBaselineInBounds()
    ensures |EasyBaseline| == |EasyBounds| && WithinBounds(EasyBaseline, EasyBounds)
  {
  }

  /** Denormalising a normalised vector gives back the zipped prefix of the original. */
  lemma DenormalizeNormalize(x: seq<real>, b: seq<Bound>)
    requires NonDegenerate(|x|, b)
    ensures Denormalize(Normalize(x, b), b) == x[..Min(|x|, |b|)]
  {
    var r := Denormalize(Normalize(x, b), b);
    forall i | 0 <= i < |r| ensures r[i] == x[i] {
      ComponentRoundTrips(x[i], b[i]);
    }
  }

  /** Normalising a denormalised vector gives back the zipped prefix of the original. */
  lemma NormalizeDenormalize(y: seq<real>, b: seq<Bound>)
    requires NonDegenerate(|y|, b)
    ensures NonDegenerate(|Denormalize(y, b)|, b)
    ensures Normalize(Denormalize(y, b), b) == y[..Min(|y|, |b|)]
  {
    var r := Normalize(Denormalize(y, b), b);
    forall i | 0 <= i < |r| ensures r[i] == y[i] {
      ComponentRoundTrips(y[i], b[i]);
    }
  }

  /** For vectors as long as the table, the two maps are mutually inverse. */
  lemma RoundTrips(x: seq<real>, b: seq<Bound>)
    requires ProperBounds(b) && |x| == |b|
    ensures Denormalize(Normalize(x, b), b) == x
    ensures Normalize(Denormalize(x, b), b) == x
  {
    DenormalizeNormalize(x, b);
    NormalizeDenormalize(x, b);
  }

  /** Denormalize maps the unit cube into the physical box. */
  lemma DenormalizeInBounds(y: seq<real>, b: seq<Bound>)
    requires ProperBounds(b) && InUnitCube(y)
    ensures WithinBounds(Denormalize(y, b), b)
  {
    var x := Denormalize(y, b);
    forall i | 0 <= i < |x| && i < |b| ensures b[i].low <= x[i] <= b[i].high {
      DenormalizeOneInBound(y[i], b[i]);
    }
  }

  /** Normalize maps the physical box into the unit cube. */
  lemma NormalizeInUnitCube(x: seq<real>, b: seq<Bound>)
    requires ProperBounds(b) && WithinBounds(x, b)
    ensures NonDegenerate(|x|, b)
    ensures InUnitCube(Normalize(x, b))
  {
    var y := Normalize(x, b);
    forall i | 0 <= i < |y| ensures 0.0 <= y[i] <= 1.0 {
      NormalizeOneInUnit(x[i], b[i]);
    }
  }
}
