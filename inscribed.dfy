/**
 * The inscribed-sphere feasibility corrector of Comsol_Optimize.py: a
 * cylinder derived from the rod geometry must fit in a sphere of radius
 * 20 * rod_radius; when it does not, rod_spacing, rod_length and
 * endcap_offset are multiplied by one common factor.
 */
module Inscribed {
  import opened Wrappers
  import opened RealFacts

  /** The order of the seven parameters in every parameter vector. */
  const ParamOrder: seq<string> :=
    ["V_rf", "V_dc", "V_endcap", "rod_spacing", "rod_radius", "rod_length", "endcap_offset"]

  /** `list.index`: the position of the first occurrence of `name`. */
  function IndexOf(names: seq<string>, name: string): (i: nat)
    requires name in names
    ensures i < |names| && names[i] == name
    ensures forall j :: 0 <= j < i ==> names[j] != name
  {
    if names[0] == name then 0 else 1 + IndexOf(names[1..], name)
  }

  /** The slot of each parameter in ParamOrder. */
  const VRf: nat := 0
  const VDc: nat := 1
  const VEndcap: nat := 2
  const RodSpacing: nat := 3
  const RodRadius: nat := 4
  const RodLength: nat := 5
  const EndcapOffset: nat := 6

  /** `PARAM_ORDER.index(name)` finds each of the seven names at its slot. */
  lemma ParamIndices()
    ensures |ParamOrder| == 7
    ensures IndexOf(ParamOrder, "V_rf") == VRf
    ensures IndexOf(ParamOrder, "V_dc") == VDc
    ensures IndexOf(ParamOrder, "V_endcap") == VEndcap
    ensures IndexOf(ParamOrder, "rod_spacing") == RodSpacing
    ensures IndexOf(ParamOrder, "rod_radius") == RodRadius
    ensures IndexOf(ParamOrder, "rod_length") == RodLength
    ensures IndexOf(ParamOrder, "endcap_offset") == EndcapOffset
  {
    assert ParamOrder[0] == "V_rf";
    assert ParamOrder[3] == "rod_spacing";
    assert ParamOrder[4] == "rod_radius";
  }

  /** The slots the corrector may rewrite. */
  predicate Adjusted(i: nat) {
    i == RodSpacing || i == RodLength || i == EndcapOffset
  }

  /** The baseline vector from which the optimiser starts. */
  const ComsolBaseline: seq<real> := [300.0, 50.0, 10.0, 0.005, 0.002, 0.04, 0.001]

  /** `math.sqrt` on the non-negative reals: a non-negative square root. */
  ghost predicate IsSqrt(sqrt: real -> real) {
    forall x :: 0.0 <= x ==> 0.0 <= sqrt(x) && sqrt(x) * sqrt(x) == x
  }

  /** The derived cylinder and the sphere that must contain it. */
  datatype Geometry = Geometry(cylRadius: real, halfHeight: real, sphereRadius: real) {
    /** The squared distance from the cylinder's centre to its rim corner. */
    function Lhs(): real {
      halfHeight * halfHeight + cylRadius * cylRadius
    }

    /** The squared sphere radius. */
    function Rhs(): real {
      sphereRadius * sphereRadius
    }

    /** The cylinder sticks out of a sphere of positive radius: the case in which the corrector fires. */
    predicate Exceeds() {
      Lhs() > Rhs() && Rhs() > 0.0
    }

    /** A sphere of non-zero radius has a positive squared radius. */
    lemma PositiveSphere()
      requires sphereRadius != 0.0
      ensures Rhs() > 0.0
    {
      calc {
        Rhs();
        == sphereRadius * sphereRadius;
        > { SquarePos(sphereRadius); } 0.0;
      }
    }
  }

  /**
   * Cylinder radius spacing/2 + rod_radius, half height (rod_length + 2 (endcap_offset + endcap_thick)) / 2,
   * sphere radius 20 rod_radius: the sphere vanishes exactly for a flat rod and has the sign of rod_radius.
   */
  function GeometryOf(params: seq<real>, endcapThick: real): (g: Geometry)
    requires |params| >= |ParamOrder|
    ensures g.sphereRadius == 0.0 <==> params[RodRadius] == 0.0
    ensures g.sphereRadius > 0.0 <==> params[RodRadius] > 0.0
  {
    Geometry(
      params[RodSpacing] / 2.0 + params[RodRadius],
      (params[RodLength] + 2.0 * (params[EndcapOffset] + endcapThick)) / 2.0,
      20.0 * params[RodRadius])
  }

  /** A rod of zero radius gives a sphere of zero radius, so the corrector never fires for it. */
  lemma FlatRodNeverExceeds(params: seq<real>, endcapThick: real)
    requires |params| >= |ParamOrder| && params[RodRadius] == 0.0
    ensures GeometryOf(params, endcapThick).Rhs() == 0.0
    ensures !GeometryOf(params, endcapThick).Exceeds()
  {
    assert GeometryOf(params, endcapThick).sphereRadius == 0.0;
  }

  /** Any other rod radius gives a sphere of positive squared radius, so only the corner test decides. */
  lemma RoundRodHasSphere(params: seq<real>, endcapThick: real)
    requires |params| >= |ParamOrder| && params[RodRadius] != 0.0
    ensures GeometryOf(params, endcapThick).Rhs() > 0.0
    ensures GeometryOf(params, endcapThick).Exceeds() <==>
      GeometryOf(params, endcapThick).Lhs() > GeometryOf(params, endcapThick).Rhs()
  {
    var g := GeometryOf(params, endcapThick);
    assert g.sphereRadius == 20.0 * params[RodRadius];
    g.PositiveSphere();
  }

  /** The common factor `min(1, R_sphere / sqrt(lhs))`: it brings the corner distance sqrt(lhs) onto the sphere radius. */
  function ShrinkFactor(g: Geometry, sqrt: real -> real): (s: real)
    requires IsSqrt(sqrt) && g.Exceeds()
    ensures s * sqrt(g.Lhs()) == g.sphereRadius
    ensures -1.0 < s < 1.0 && s != 0.0
    ensures s > 0.0 <==> g.sphereRadius > 0.0
  {
    var c := sqrt(g.Lhs());
    QuotientByRoot(g.sphereRadius, g.Lhs(), c);
    MinReal(1.0, g.sphereRadius / c)
  }

  /** Scaling the whole cylinder by the factor would put its corner exactly on the sphere. */
  lemma ShrinkFactorSquared(g: Geometry, sqrt: real -> real)
    requires IsSqrt(sqrt) && g.Exceeds()
    ensures var s := ShrinkFactor(g, sqrt); s * s * g.Lhs() == g.Rhs() && 0.0 < s * s < 1.0
  {
    var s := ShrinkFactor(g, sqrt);
    var c := sqrt(g.Lhs());
    SquareOfProduct(s, c, g.sphereRadius, g.Lhs());
    MulPos(1.0 - s, 1.0 + s);
    if s > 0.0 { MulPos(s, s); }
    if s < 0.0 { MulPos(-s, -s); }
  }

  /** The parameters with the three adjusted slots multiplied by s. */
  function ScaledBy(params: seq<real>, s: real): seq<real>
    requires |params| >= |ParamOrder|
  {
    params[RodSpacing := params[RodSpacing] * s]
          [RodLength := params[RodLength] * s]
          [EndcapOffset := params[EndcapOffset] * s]
  }

  /** Scaling keeps the length and every slot but the three adjusted ones, which are multiplied by s. */
  lemma ScaledByShape(params: seq<real>, s: real)
    requires |params| >= |ParamOrder|
    ensures |ScaledBy(params, s)| == |params|
    ensures forall i: nat :: i < |params| && !Adjusted(i) ==> ScaledBy(params, s)[i] == params[i]
    ensures forall i: nat :: Adjusted(i) ==> ScaledBy(params, s)[i] == params[i] * s
  {
  }

  /**
   * What the corrector returns, as a function of its inputs: the input
   * itself when the geometry fits, and otherwise the input with the three
   * adjusted slots multiplied by one common factor.
   */
  function Corrected(params: seq<real>, endcapThick: real, sqrt: real -> real): (p: seq<real>)
    requires IsSqrt(sqrt) && |params| >= |ParamOrder|
    ensures |p| == |params|
    ensures forall i: nat :: i < |params| && !Adjusted(i) ==> p[i] == params[i]
    ensures !GeometryOf(params, endcapThick).Exceeds() ==> p == params
    ensures GeometryOf(params, endcapThick).Exceeds() ==>
      var s := ShrinkFactor(GeometryOf(params, endcapThick), sqrt);
      p[RodSpacing] == params[RodSpacing] * s && p[RodLength] == params[RodLength] * s &&
      p[EndcapOffset] == params[EndcapOffset] * s
  {
    var g := GeometryOf(params, endcapThick);
    if g.Exceeds() then
      var s := ShrinkFactor(g, sqrt);
      ScaledByShape(params, s);
      ScaledBy(params, s)
    else params
  }

  /** Scaling by a factor strictly between -1 and 1 does not grow any adjusted slot, and shrinks a non-zero one. */
  lemma ScaledByNoGrowth(params: seq<real>, s: real, i: nat)
    requires |params| >= |ParamOrder| && Adjusted(i) && -1.0 < s < 1.0
    ensures Abs(ScaledBy(params, s)[i]) <= Abs(params[i])
    ensures params[i] != 0.0 ==> Abs(ScaledBy(params, s)[i]) < Abs(params[i])
  {
    assert ScaledBy(params, s)[i] == params[i] * s;
    ShrinkMagnitude(params[i], s);
  }

  /** The corrected vector has the input's length and differs from it only in the three adjusted slots, none of which grows in magnitude. */
  lemma CorrectedShape(params: seq<real>, endcapThick: real, sqrt: real -> real, i: nat)
    requires IsSqrt(sqrt) && |params| >= |ParamOrder| && i < |params|
    ensures |Corrected(params, endcapThick, sqrt)| == |params|
    ensures !Adjusted(i) ==> Corrected(params, endcapThick, sqrt)[i] == params[i]
    ensures Adjusted(i) ==> Abs(Corrected(params, endcapThick, sqrt)[i]) <= Abs(params[i])
    ensures Adjusted(i) && params[i] != 0.0 && GeometryOf(params, endcapThick).Exceeds() ==>
      Abs(Corrected(params, endcapThick, sqrt)[i]) < Abs(params[i])
  {
    var g := GeometryOf(params, endcapThick);
    if g.Exceeds() {
      var s := ShrinkFactor(g, sqrt);
      ScaledByShape(params, s);
      if Adjusted(i) {
        ScaledByNoGrowth(params, s, i);
      }
    }
  }

  /**
   * `enforce_inscribed_constraint`. `endcapReading` is what reading
   * endcap_thick from the model gave (None for no model, a None value or
   * a failed read); `sqrt` is the library square root.
   */
  method EnforceInscribedConstraint(params: seq<real>, endcapReading: Option<real>, sqrt: real -> real)
    returns (p: seq<real>, modified: bool)
    requires IsSqrt(sqrt) && |params| >= |ParamOrder|
    ensures p == Corrected(params, endcapReading.GetOr(0.0), sqrt)
    ensures modified <==> GeometryOf(params, endcapReading.GetOr(0.0)).Exceeds()
    ensures |p| == |params|
    ensures forall i :: 0 <= i < |params| && !Adjusted(i) ==> p[i] == params[i]
    ensures !modified ==> p == params
  {
    ParamIndices();
    p := params;
    var iSpacing := IndexOf(ParamOrder, "rod_spacing");
    var iRadius := IndexOf(ParamOrder, "rod_radius");
    var iLength := IndexOf(ParamOrder, "rod_length");
    var iEndcapOff := IndexOf(ParamOrder, "endcap_offset");

    var rodSpacing := p[iSpacing];
    var rodRadius := p[iRadius];
    var rodLength := p[iLength];
    var endcapOffset := p[iEndcapOff];
    assert rodSpacing == params[RodSpacing] && rodRadius == params[RodRadius];
    assert rodLength == params[RodLength] && endcapOffset == params[EndcapOffset];

    var endcapThick := 0.0;
    if endcapReading.Some? {
      endcapThick := endcapReading.value;
    }

    var cylRadius := rodSpacing / 2.0 + rodRadius;
    var cylHeight := rodLength + 2.0 * (endcapOffset + endcapThick);
    var halfHeight := cylHeight / 2.0;
    var rSphere := 20.0 * rodRadius;

    var lhs := halfHeight * halfHeight + cylRadius * cylRadius;
    var rhs := rSphere * rSphere;
    assert endcapThick == endcapReading.GetOr(0.0);
    ghost var g := GeometryOf(params, endcapThick);
    assert g == Geometry(cylRadius, halfHeight, rSphere);
    assert lhs == g.Lhs() && rhs == g.Rhs();
    if lhs <= rhs || rhs <= 0.0 {
      return p, false;
    }

    var current := sqrt(lhs);
    var desired := rSphere;
    var scale := MinReal(1.0, desired / current);
    assert scale == ShrinkFactor(g, sqrt);

    var newSpacing := rodSpacing * scale;
    var newLength := rodLength * scale;
    var newEndcapOff := endcapOffset * scale;
    p := p[iSpacing := newSpacing];
    p := p[iLength := newLength];
    p := p[iEndcapOff := newEndcapOff];
    assert newSpacing == params[RodSpacing] * scale;
    assert newLength == params[RodLength] * scale;
    assert newEndcapOff == params[EndcapOffset] * scale;
    WriteBackIsScaledBy(params, scale, newSpacing, newLength, newEndcapOff);
    ScaledByShape(params, scale);
    return p, true;
  }

  /** Writing the three scaled slots back into the vector gives ScaledBy. */
  lemma WriteBackIsScaledBy(params: seq<real>, s: real, x': real, y': real, z': real)
    requires |params| >= |ParamOrder|
    requires x' == params[RodSpacing] * s && y' == params[RodLength] * s && z' == params[EndcapOffset] * s
    ensures params[RodSpacing := x'][RodLength := y'][EndcapOffset := z'] == ScaledBy(params, s)
  {
  }

  /** The geometry of a scaled vector: the spacing and length parts of the cylinder shrink, rod_radius and endcap_thick stay. */
  lemma ScaledGeometry(params: seq<real>, endcapThick: real, s: real, g: Geometry, g2: Geometry)
    requires |params| >= |ParamOrder|
    requires g == GeometryOf(params, endcapThick) && g2 == GeometryOf(ScaledBy(params, s), endcapThick)
    ensures
      g.cylRadius == params[RodSpacing] / 2.0 + params[RodRadius] &&
      g.halfHeight == params[RodLength] / 2.0 + params[EndcapOffset] + endcapThick &&
      g2.cylRadius == s * (params[RodSpacing] / 2.0) + params[RodRadius] &&
      g2.halfHeight == s * (params[RodLength] / 2.0 + params[EndcapOffset]) + endcapThick &&
      g2.sphereRadius == g.sphereRadius
  {
    var q := ScaledBy(params, s);
    ScaledByShape(params, s);
    assert q[RodSpacing] == params[RodSpacing] * s;
    assert q[RodLength] == params[RodLength] * s;
    assert q[EndcapOffset] == params[EndcapOffset] * s;
    assert q[RodRadius] == params[RodRadius];
  }

  /**
   * The corrector is not idempotent: for a positive rod radius and
   * non-negative dimensions, the corrected geometry still sticks out of
   * the sphere, because rod_radius (and endcap_thick) enter the cylinder
   * but are not scaled, so a second application fires again.
   */
  lemma SecondPassFiresAgain(params: seq<real>, endcapThick: real, sqrt: real -> real)
    requires IsSqrt(sqrt) && |params| >= |ParamOrder|
    requires params[RodRadius] > 0.0 && endcapThick >= 0.0
    requires params[RodSpacing] >= 0.0 && params[RodLength] >= 0.0 && params[EndcapOffset] >= 0.0
    requires GeometryOf(params, endcapThick).Exceeds()
    ensures GeometryOf(Corrected(params, endcapThick, sqrt), endcapThick).Exceeds()
  {
    var g := GeometryOf(params, endcapThick);
    var s := ShrinkFactor(g, sqrt);
    assert g.sphereRadius == 20.0 * params[RodRadius];
    assert 0.0 < s < 1.0;
    ShrinkFactorSquared(g, sqrt);
    assert Corrected(params, endcapThick, sqrt) == ScaledBy(params, s);
    ScaledStillExceeds(params, endcapThick, s);
  }

  /**
   * Shrinking the three slots by 0 < s < 1 when s * s * lhs == rhs keeps
   * the corner outside the sphere, as long as rod_radius is positive and
   * the other dimensions are not negative.
   */
  lemma ScaledStillExceeds(params: seq<real>, endcapThick: real, s: real)
    requires |params| >= |ParamOrder|
    requires params[RodRadius] > 0.0 && endcapThick >= 0.0
    requires params[RodSpacing] >= 0.0 && params[RodLength] >= 0.0 && params[EndcapOffset] >= 0.0
    requires 0.0 < s < 1.0
    requires s * s * GeometryOf(params, endcapThick).Lhs() == GeometryOf(params, endcapThick).Rhs()
    requires GeometryOf(params, endcapThick).Rhs() > 0.0
    ensures GeometryOf(ScaledBy(params, s), endcapThick).Exceeds()
  {
    var g, g2 := GeometryOf(params, endcapThick), GeometryOf(ScaledBy(params, s), endcapThick);
    var a, b, r := params[RodSpacing] / 2.0, params[RodLength] / 2.0 + params[EndcapOffset], params[RodRadius];
    assert a >= 0.0 && b >= 0.0 && r > 0.0;
    assert g.cylRadius == a + r && g.halfHeight == b + endcapThick &&
      g2.cylRadius == s * a + r && g2.halfHeight == s * b + endcapThick && g2.sphereRadius == g.sphereRadius by {
      ScaledGeometry(params, endcapThick, s, g, g2);
    }
    ShrunkGeometryExceeds(g, g2, s, a, b, r, endcapThick);
  }

  /**
   * A cylinder with radius a + r and half height b + t whose parts a and b
   * shrink by 0 < s < 1, where s * s * lhs == rhs, still sticks out of the
   * same sphere when r > 0 and a, b, t >= 0.
   */
  lemma ShrunkGeometryExceeds(g: Geometry, g2: Geometry, s: real, a: real, b: real, r: real, t: real)
    requires g.cylRadius == a + r && g.halfHeight == b + t
    requires g2.cylRadius == s * a + r && g2.halfHeight == s * b + t && g2.sphereRadius == g.sphereRadius
    requires 0.0 < s < 1.0 && a >= 0.0 && b >= 0.0 && r > 0.0 && t >= 0.0
    requires s * s * g.Lhs() == g.Rhs() && g.Rhs() > 0.0
    ensures g2.Exceeds()
  {
    LhsOfParts(g, b + t, a + r);
    ShrunkCornerOutside(s, a, r, b, t, g.Rhs(), g.Lhs());
    LhsOfParts(g2, s * b + t, s * a + r);
    assert g2.Rhs() == g.Rhs();
  }

  /** The corner distance of a geometry given its half height and cylinder radius. */
  lemma LhsOfParts(g: Geometry, h: real, c: real)
    requires g.halfHeight == h && g.cylRadius == c
    ensures g.Lhs() == h * h + c * c
  {
  }

  /** The baseline geometry fits, while stretching the rods to 5.0 makes the corrector fire. */
  lemma BaselineExamples()
    ensures |ComsolBaseline| == |ParamOrder|
    ensures !GeometryOf(ComsolBaseline, 0.0).Exceeds()
    ensures GeometryOf(ComsolBaseline[RodLength := 5.0], 0.0).Exceeds()
  {
    ParamIndices();
  }
}
