/**
 * Integer plane geometry behind the layout engine: points, the eight simple
 * orientations of KLayout's `Trans` with an integer displacement, connection
 * angles as quarter turns, and regions as finite point sets.
 */
module Geometry {

  datatype Point = Point(x: int, y: int)

  function Add(p: Point, q: Point): Point { Point(p.x + q.x, p.y + q.y) }

  function Neg(p: Point): Point { Point(-p.x, -p.y) }

  const Origin: Point := Point(0, 0)

  /** A multiple of 90 degrees, counter-clockwise. */
  type Quadrant = q: int | 0 <= q < 4

  /** Sum of two quarter-turn counts, modulo a full turn. */
  function AddQ(a: Quadrant, b: Quadrant): Quadrant {
    if a + b < 4 then a + b else a + b - 4
  }

  /** The opposite quarter-turn count, modulo a full turn. */
  function NegQ(a: Quadrant): Quadrant {
    if a == 0 then 0 else 4 - a
  }

  /**
   * A simple transform: mirror at the x axis (when `mirror`), then rotate by
   * `rot` quarter turns, then displace by `disp`. Magnification is 1.
   */
  datatype Trans = Trans(rot: Quadrant, mirror: bool, disp: Point)

  function Mirror(m: bool, p: Point): Point {
    if m then Point(p.x, -p.y) else p
  }

  function Rotate(q: Quadrant, p: Point): Point {
    if q == 0 then p
    else if q == 1 then Point(-p.y, p.x)
    else if q == 2 then Point(-p.x, -p.y)
    else Point(p.y, -p.x)
  }

  /** The transform without its displacement (what acts on vectors). */
  function Linear(t: Trans, p: Point): Point {
    Rotate(t.rot, Mirror(t.mirror, p))
  }

  function Apply(t: Trans, p: Point): Point {
    Add(Linear(t, p), t.disp)
  }

  /** A pure translation, `DCplxTrans(1, 0, False, d)`. */
  function Translation(d: Point): Trans {
    Trans(0, false, d)
  }

  /** "dup and zero `disp`": the same rotation and mirror, no displacement. */
  function WithoutDisp(t: Trans): Trans {
    t.(disp := Origin)
  }

  /** The displacement part of a transform on its own. */
  function DispOnly(t: Trans): Trans {
    Translation(t.disp)
  }

  lemma LinearAdditive(t: Trans, p: Point, q: Point)
    ensures Linear(t, Add(p, q)) == Add(Linear(t, p), Linear(t, q))
  {
  }

  lemma RotateRotate(q1: Quadrant, q2: Quadrant, p: Point)
    ensures Rotate(q1, Rotate(q2, p)) == Rotate(AddQ(q1, q2), p)
  {
    if q2 == 0 {
    } else if q2 == 1 {
    } else if q2 == 2 {
    } else {
    }
  }

  /** Mirroring after a rotation is the opposite rotation after mirroring. */
  lemma MirrorRotate(q: Quadrant, p: Point)
    ensures Mirror(true, Rotate(q, p)) == Rotate(NegQ(q), Mirror(true, p))
  {
  }

  lemma MirrorMirror(m1: bool, m2: bool, p: Point)
    ensures Mirror(m1, Mirror(m2, p)) == Mirror(m1 != m2, p)
  {
  }

  /** The linear part of `Compose(a, b)`. */
  lemma LinearCompose(a: Trans, b: Trans, p: Point)
    ensures Linear(a, Linear(b, p))
         == Rotate(if a.mirror then AddQ(a.rot, NegQ(b.rot)) else AddQ(a.rot, b.rot),
                   Mirror(a.mirror != b.mirror, p))
  {
    var mb := Mirror(b.mirror, p);
    if a.mirror {
      MirrorRotate(b.rot, mb);
      RotateRotate(a.rot, NegQ(b.rot), Mirror(true, mb));
      MirrorMirror(true, b.mirror, p);
    } else {
      RotateRotate(a.rot, b.rot, mb);
    }
  }

  /** `Compose(a, b)` applies `b` first, then `a` (see `ApplyCompose`). */
  function Compose(a: Trans, b: Trans): Trans {
    Trans(if a.mirror then AddQ(a.rot, NegQ(b.rot)) else AddQ(a.rot, b.rot),
          a.mirror != b.mirror,
          Apply(a, b.disp))
  }

  lemma ApplyCompose(a: Trans, b: Trans, p: Point)
    ensures Apply(Compose(a, b), p) == Apply(a, Apply(b, p))
  {
    LinearAdditive(a, Linear(b, p), b.disp);
    LinearCompose(a, b, p);
  }

  /** The transform that does nothing. */
  const Identity: Trans := Trans(0, false, Origin)

  lemma ApplyIdentity(p: Point)
    ensures Apply(Identity, p) == p
  {
  }

  lemma LinearNeg(t: Trans, p: Point)
    ensures Linear(t, Neg(p)) == Neg(Linear(t, p))
  {
  }

  /** The transform that undoes `t` (see `ApplyInverse`). */
  function Inverse(t: Trans): Trans {
    var rot := if t.mirror then t.rot else NegQ(t.rot);
    Trans(rot, t.mirror, Neg(Linear(Trans(rot, t.mirror, Origin), t.disp)))
  }

  lemma ComposeInverse(t: Trans)
    ensures Compose(Inverse(t), t) == Identity
    ensures Compose(t, Inverse(t)) == Identity
  {
    var inv := Inverse(t);
    var v := Linear(inv, t.disp);
    assert Apply(inv, t.disp) == Add(v, Neg(v));
    LinearNeg(t, v);
    LinearCompose(t, inv, t.disp);
    assert Linear(t, v) == t.disp;
    assert Apply(t, inv.disp) == Add(Neg(Linear(t, v)), t.disp);
  }

  lemma ApplyInverse(t: Trans, p: Point)
    ensures Apply(Inverse(t), Apply(t, p)) == p
    ensures Apply(t, Apply(Inverse(t), p)) == p
  {
    ComposeInverse(t);
    ApplyCompose(Inverse(t), t, p);
    ApplyCompose(t, Inverse(t), p);
  }

  // ---------------------------------------------------------------- angles

  /** The unit vector `(cos a, sin a)` of a quarter-turn angle. */
  function UnitVector(a: Quadrant): Point {
    if a == 0 then Point(1, 0)
    else if a == 1 then Point(0, 1)
    else if a == 2 then Point(-1, 0)
    else Point(0, -1)
  }

  /** `atan2(v.y, v.x)` for vectors along an axis, as a quarter turn. */
  function AngleOf(v: Point): Quadrant {
    if v.y == 0 && v.x > 0 then 0
    else if v.x == 0 && v.y > 0 then 1
    else if v.y == 0 && v.x < 0 then 2
    else 3
  }

  /**
   * Where a direction ends up under `t`: mirroring negates the angle,
   * rotation adds `rot`; the displacement plays no part.
   */
  function TransformAngle(t: Trans, a: Quadrant): Quadrant {
    AddQ(t.rot, if t.mirror then NegQ(a) else a)
  }

  /**
   * The source's route for an angle: take the unit vector, transform it with
   * the displacement zeroed and read the angle back. It yields exactly
   * `TransformAngle`, whatever `t`'s displacement.
   */
  lemma AngleViaUnitVector(t: Trans, a: Quadrant)
    ensures AngleOf(Apply(WithoutDisp(t), UnitVector(a))) == TransformAngle(t, a)
  {
    var a1 := if t.mirror then NegQ(a) else a;
    MirrorUnit(t.mirror, a);
    RotateUnit(t.rot, a1);
    var v := Apply(WithoutDisp(t), UnitVector(a));
    assert v == UnitVector(AddQ(t.rot, a1));
    AngleOfUnit(AddQ(t.rot, a1));
  }

  lemma MirrorUnit(m: bool, a: Quadrant)
    ensures Mirror(m, UnitVector(a)) == UnitVector(if m then NegQ(a) else a)
  {
    if a == 0 {
    } else if a == 1 {
    } else if a == 2 {
    } else {
    }
  }

  lemma AngleOfUnit(a: Quadrant)
    ensures AngleOf(UnitVector(a)) == a
  {
  }

  lemma RotateUnit(q: Quadrant, a: Quadrant)
    ensures Rotate(q, UnitVector(a)) == UnitVector(AddQ(q, a))
  {
    if q == 0 {
    } else if q == 1 {
    } else if q == 2 {
    } else {
    }
  }

  /**
   * Zeroing the displacement is needed: pushing the unit vector through a
   * transform that still displaces it can report the opposite direction.
   */
  lemma DisplacedUnitVectorMisleads(d: Point)
    requires d == Point(-2, 0)
    ensures AngleOf(Apply(Translation(d), UnitVector(0))) == 2
    ensures TransformAngle(Translation(d), 0) == 0
  {
  }

  lemma AddQAssoc(a: Quadrant, b: Quadrant, c: Quadrant)
    ensures AddQ(a, AddQ(b, c)) == AddQ(AddQ(a, b), c)
  {
  }

  lemma NegQAdd(a: Quadrant, b: Quadrant)
    ensures NegQ(AddQ(a, b)) == AddQ(NegQ(a), NegQ(b))
  {
  }

  lemma AngleCompose(a: Trans, b: Trans, q: Quadrant)
    ensures TransformAngle(a, TransformAngle(b, q)) == TransformAngle(Compose(a, b), q)
  {
    var qb := if b.mirror then NegQ(q) else q;
    if a.mirror {
      NegQAdd(b.rot, qb);
      AddQAssoc(a.rot, NegQ(b.rot), NegQ(qb));
    } else {
      AddQAssoc(a.rot, b.rot, qb);
    }
  }

  // --------------------------------------------------------------- regions

  /** A region: the set of grid points it covers. */
  type PointSet = set<Point>

  /** `Region.transform`: the image of every point. */
  function TransformRegion(t: Trans, r: PointSet): PointSet {
    set p | p in r :: Apply(t, p)
  }

  /** A point lies in a transformed region exactly when its preimage lies in the region. */
  lemma TransformRegionMember(t: Trans, r: PointSet, q: Point)
    ensures q in TransformRegion(t, r) <==> Apply(Inverse(t), q) in r
  {
    ApplyInverse(t, q);
    if q in TransformRegion(t, r) {
      var p :| p in r && q == Apply(t, p);
      ApplyInverse(t, p);
    }
  }

  lemma TransformRegionCompose(a: Trans, b: Trans, r: PointSet)
    ensures TransformRegion(a, TransformRegion(b, r)) == TransformRegion(Compose(a, b), r)
  {
    var lhs := TransformRegion(a, TransformRegion(b, r));
    var rhs := TransformRegion(Compose(a, b), r);
    forall q | q in lhs ensures q in rhs {
      var p :| p in TransformRegion(b, r) && q == Apply(a, p);
      var p0 :| p0 in r && p == Apply(b, p0);
      ApplyCompose(a, b, p0);
    }
    forall q | q in rhs ensures q in lhs {
      var p0 :| p0 in r && q == Apply(Compose(a, b), p0);
      ApplyCompose(a, b, p0);
    }
  }

  lemma TransformRegionUnion(t: Trans, r: PointSet, s: PointSet)
    ensures TransformRegion(t, r + s) == TransformRegion(t, r) + TransformRegion(t, s)
  {
  }
}
