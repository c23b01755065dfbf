/**
 * The two base classes of the layout library as mutable objects.
 *
 * `Element` stands for both `Element_Base` and `Complex_Base`: `isComplex`
 * selects which of the overridden methods runs, as Python's dynamic dispatch
 * would. A composite holds its primitives, which are leaf elements, as
 * objects; `FrameOf()` reads one element's own state as a `Frame` and
 * `Model()` reads an element together with its primitives as a `Node`.
 * Transforming methods are specified frame by frame (the element's own
 * frame and each primitive's frame, through the functions of module Nodes);
 * lemmas in Nodes show that those frame-wise moves are the moves of the
 * whole `Node`. Construction and placement are specified on `Model()`.
 */
module BaseClasses {
  import opened Wrappers
  import opened Geometry
  import opened Nodes

  /** What `add_sonnet_port` raises for an index outside the connection list. */
  datatype Error = IndexError

  /**
   * A layout region used as the destination of `place`: the points it covers
   * and, as ghost state, the calls made on it in order.
   */
  class Region {
    var shapes: PointSet
    ghost var history: seq<RegionOp>

    constructor (s: PointSet)
      ensures shapes == s && history == []
    {
      shapes := s;
      history := [];
    }

    /** `dest += other` */
    method AddRegion(other: PointSet)
      modifies this
      ensures shapes == old(shapes) + other
      ensures history == old(history) + [Added(other)]
    {
      shapes := shapes + other;
      history := history + [Added(other)];
    }

    /** `dest -= other` */
    method SubtractRegion(other: PointSet)
      modifies this
      ensures shapes == old(shapes) - other
      ensures history == old(history) + [Subtracted(other)]
    {
      shapes := shapes - other;
      history := history + [Subtracted(other)];
    }

    /** `dest.merge()`: joins polygons; the covered points stay the same. */
    method Merge()
      modifies this
      ensures shapes == old(shapes)
      ensures history == old(history) + [Merged]
    {
      history := history + [Merged];
    }
  }

  /** Python's index into a list of length `n`, negative indices counting from the end. */
  function PyIndex(n: nat, i: int): (r: nat)
    requires 0 <= n + i && i < n
    ensures r < n && (i >= 0 ==> r == i) && (i < 0 ==> r == n + i)
  {
    if i >= 0 then i else n + i
  }

  /** The models of a composite's primitives, which are leaves. */
  ghost function LeafModels(ps: seq<Element>): (r: seq<Node>)
    reads ps
    ensures |r| == |ps| && forall i :: 0 <= i < |ps| ==> r[i] == Leaf(ps[i].FrameOf())
  {
    if ps == [] then [] else LeafModels(ps[..|ps| - 1]) + [Leaf(ps[|ps| - 1].FrameOf())]
  }

  /** Pairwise distinct objects: no element is stored twice. */
  ghost predicate Distinct(ps: seq<Element>) {
    forall i, j :: 0 <= i < j < |ps| ==> ps[i] != ps[j]
  }

  /** Every element of `ps` is a leaf. */
  ghost predicate Leaves(ps: seq<Element>)
    reads ps
  {
    forall i :: 0 <= i < |ps| ==> ps[i].IsLeaf()
  }

  class Element {
    var isComplex: bool
    var origin: Point
    var connections: seq<Point>
    var connectionEdges: seq<int>
    var sonnetPortConnections: seq<Point>
    var angleConnections: seq<Quadrant>
    var metalRegion: PointSet
    var emptyRegion: PointSet
    var metalRegions: map<string, Slot>
    var emptyRegions: map<string, Slot>
    var initTrans: Option<Trans>
    var primitiveNames: seq<string>
    var primitives: seq<Element>

    ghost function FrameOf(): Frame
      reads this
    {
      Frame(origin, connections, connectionEdges, sonnetPortConnections, angleConnections,
            metalRegion, emptyRegion, metalRegions, emptyRegions)
    }

    /** A leaf element: no primitives. */
    ghost predicate IsLeaf()
      reads this
    {
      !isComplex && primitives == [] && primitiveNames == []
    }

    /**
     * A leaf, or a composite whose primitives are distinct leaves stored
     * under distinct names, one name per primitive.
     */
    ghost predicate Valid()
      reads this, primitives
    {
      if !isComplex then IsLeaf()
      else
        && |primitiveNames| == |primitives|
        && this !in primitives
        && DistinctNames(primitiveNames)
        && Leaves(primitives)
        && Distinct(primitives)
    }

    /** The element read as a value. */
    ghost function Model(): Node
      reads this, primitives
    {
      if isComplex then Complex(FrameOf(), primitiveNames, LeafModels(primitives))
      else Leaf(FrameOf())
    }

    // --------------------------------------------------------- construction

    /**
     * `Element_Base.__init__`: `init_regions` authors `shape` in local
     * coordinates, then the constructor transform and the translation to
     * `origin` move it.
     */
    constructor ElementBase(origin: Point, transIn: Option<Trans>, shape: Shape)
      ensures IsLeaf() && initTrans == transIn
      ensures Model() == InitTransNode(Leaf(WithShape(BlankFrame(origin), shape)), transIn)
    {
      isComplex := false;
      this.origin := origin;
      connections := [];
      connectionEdges := [];
      sonnetPortConnections := [];
      angleConnections := [];
      metalRegion := {};
      emptyRegion := {};
      metalRegions := map["default" := Primary];
      emptyRegions := map["default" := Primary];
      initTrans := transIn;
      primitiveNames := [];
      primitives := [];
      new;
      InitRegionsTrans(shape);
    }

    /** The subclass hook `init_regions`, with what it authors as a parameter. */
    method InitRegions(shape: Shape)
      requires IsLeaf()
      modifies this
      ensures IsLeaf() && initTrans == old(initTrans)
      ensures FrameOf() == WithShape(old(FrameOf()), shape)
    {
      metalRegion := shape.metal;
      emptyRegion := shape.empty;
      connections := shape.connections;
      connectionEdges := shape.connectionEdges;
      angleConnections := shape.angles;
      metalRegions := metalRegions + shape.metalRegions;
      emptyRegions := emptyRegions + shape.emptyRegions;
    }

    /** `Element_Base._init_regions_trans`: the hook, then the construction steps. */
    method InitRegionsTrans(shape: Shape)
      requires IsLeaf()
      modifies this
      ensures IsLeaf() && initTrans == old(initTrans)
      ensures Model() == InitTransNode(Leaf(WithShape(old(FrameOf()), shape)), initTrans)
    {
      InitRegions(shape);
      ApplyInitTrans();
    }

    /**
     * The steps both constructors share: the displacement of the constructor
     * transform, then the transform with its displacement zeroed, then the
     * translation to the origin; the origin then moves by where local (0,0)
     * went under the first two steps.
     */
    method ApplyInitTrans()
      requires Valid()
      modifies this, primitives
      ensures Valid() && isComplex == old(isComplex) && initTrans == old(initTrans)
      ensures primitives == old(primitives) && primitiveNames == old(primitiveNames)
      ensures FrameOf() == InitOwn(isComplex, old(FrameOf()), initTrans)
      ensures forall j :: 0 <= j < |primitives| ==>
                primitives[j].FrameOf() == InitSteps(false, old(primitives[j].FrameOf()), old(origin), initTrans)
    {
      var dr := Origin;
      if initTrans.Some? {
        var d := DispOnly(initTrans.value);
        MakeTrans(Some(d));
        dr := Apply(d, dr);
        var l := WithoutDisp(initTrans.value);
        MakeTrans(Some(l));
        dr := Apply(l, dr);
      }
      MakeTrans(Some(Translation(origin)));
      origin := Add(origin, dr);
    }

    /**
     * `Complex_Base.__init__`: the hook `init_primitives` stores the
     * primitives (already constructed) and the composite's own markers, then
     * the construction steps move everything, and finally the composite
     * takes its one-time snapshot of the primitives' regions.
     */
    constructor ComplexBase(origin: Point, transIn: Option<Trans>, names: seq<string>, prims: seq<Element>,
                            conns: seq<Point>, edges: seq<int>, angles: seq<Quadrant>)
      requires |names| == |prims| && DistinctNames(names)
      requires Leaves(prims) && Distinct(prims)
      modifies prims
      ensures Valid() && isComplex && primitives == prims && initTrans == transIn
      ensures Model() == Snapshot(InitTransNode(Complex(WithMarkers(BlankFrame(origin), conns, edges, angles),
                                                        names, old(LeafModels(prims))), transIn))
    {
      isComplex := true;
      this.origin := origin;
      connections := [];
      connectionEdges := [];
      sonnetPortConnections := [];
      angleConnections := [];
      metalRegion := {};
      emptyRegion := {};
      metalRegions := map["default" := Primary];
      emptyRegions := map["default" := Primary];
      initTrans := transIn;
      primitiveNames := [];
      primitives := [];
      new;
      assert FrameOf() == BlankFrame(origin) && LeafModels(prims) == old(LeafModels(prims));
      InitPrimitivesTrans(names, prims, conns, edges, angles);
    }

    /** The subclass hook `init_primitives`, with what it builds as parameters. */
    method InitPrimitives(names: seq<string>, prims: seq<Element>,
                          conns: seq<Point>, edges: seq<int>, angles: seq<Quadrant>)
      requires Valid() && isComplex && primitives == []
      requires |names| == |prims| && DistinctNames(names)
      requires Leaves(prims) && Distinct(prims)
      modifies this
      ensures Valid() && isComplex && initTrans == old(initTrans)
      ensures primitives == prims && primitiveNames == names
      ensures FrameOf() == WithMarkers(old(FrameOf()), conns, edges, angles)
    {
      primitiveNames := names;
      primitives := prims;
      connections := conns;
      connectionEdges := edges;
      angleConnections := angles;
    }

    /** `Complex_Base._init_primitives_trans`: the hook, the construction steps, the snapshot. */
    method InitPrimitivesTrans(names: seq<string>, prims: seq<Element>,
                               conns: seq<Point>, edges: seq<int>, angles: seq<Quadrant>)
      requires Valid() && isComplex && primitives == []
      requires |names| == |prims| && DistinctNames(names)
      requires Leaves(prims) && Distinct(prims)
      modifies this, prims
      ensures Valid() && isComplex && primitives == prims && initTrans == old(initTrans)
      ensures Model() == Snapshot(InitTransNode(Complex(WithMarkers(old(FrameOf()), conns, edges, angles),
                                                        names, old(LeafModels(prims))), initTrans))
    {
      ghost var n0 := Complex(WithMarkers(FrameOf(), conns, edges, angles), names, LeafModels(prims));
      InitPrimitives(names, prims, conns, edges, angles);
      ApplyInitTrans();
      InitTransComplexParts(n0, initTrans, FrameOf(), LeafModels(primitives));
      TakeSnapshot();
    }

    /**
     * The closing loop of `_init_primitives_trans`: every primitive's regions
     * are added to the composite's own, in insertion order.
     */
    method TakeSnapshot()
      requires Valid() && isComplex
      modifies this
      ensures Valid() && isComplex && primitives == old(primitives) && initTrans == old(initTrans)
      ensures Model() == Snapshot(old(Model()))
    {
      ghost var n0 := Model();
      var metal, empty := metalRegion, emptyRegion;
      var i := 0;
      while i < |primitives|
        invariant 0 <= i <= |primitives|
        invariant metal == n0.frame.metal + SumMetal(n0.children[..i])
        invariant empty == n0.frame.empty + SumEmpty(n0.children[..i])
      {
        assert n0.children[..i + 1][..i] == n0.children[..i];
        metal := metal + primitives[i].metalRegion;
        empty := empty + primitives[i].emptyRegion;
        i := i + 1;
      }
      assert n0.children[..i] == n0.children;
      metalRegion, emptyRegion := metal, empty;
    }

    // ----------------------------------------------------------- transforms

    /** `make_trans`, dispatched on the kind of element. */
    method MakeTrans(t: Option<Trans>)
      requires Valid()
      modifies this, primitives
      ensures Valid() && isComplex == old(isComplex) && initTrans == old(initTrans) && origin == old(origin)
      ensures primitives == old(primitives) && primitiveNames == old(primitiveNames)
      ensures FrameOf() == MoveOwnOpt(isComplex, t, old(FrameOf()))
      ensures forall j :: 0 <= j < |primitives| ==>
                primitives[j].FrameOf() == MoveLeafOpt(t, old(primitives[j].FrameOf()))
    {
      if isComplex {
        ComplexMakeTrans(t);
      } else {
        LeafMakeTrans(t);
      }
    }

    /** `Element_Base.make_trans`: both primary regions, the connections and the angles. */
    method LeafMakeTrans(t: Option<Trans>)
      requires IsLeaf()
      modifies this
      ensures IsLeaf() && initTrans == old(initTrans)
      ensures FrameOf() == MoveLeafOpt(t, old(FrameOf()))
    {
      if t.Some? {
        metalRegion := TransformRegion(t.value, metalRegion);
        emptyRegion := TransformRegion(t.value, emptyRegion);
        UpdateConnections(t);
        UpdateAlpha(t);
      }
    }

    /**
     * `Complex_Base.make_trans`: every primitive in insertion order, then the
     * composite's own connections and angles. The composite's own regions
     * (the snapshot) are not transformed.
     */
    method ComplexMakeTrans(t: Option<Trans>)
      requires Valid() && isComplex
      modifies this, primitives
      ensures Valid() && isComplex && initTrans == old(initTrans) && origin == old(origin)
      ensures primitives == old(primitives) && primitiveNames == old(primitiveNames)
      ensures FrameOf() == MoveMarkersOpt(t, old(FrameOf()))
      ensures forall j :: 0 <= j < |primitives| ==>
                primitives[j].FrameOf() == MoveLeafOpt(t, old(primitives[j].FrameOf()))
    {
      TransformPrimitives(t);
      UpdateConnections(t);
      UpdateAlpha(t);
    }

    /** The loop of `Complex_Base.make_trans`: each primitive in turn. */
    method TransformPrimitives(t: Option<Trans>)
      requires Valid() && isComplex
      modifies primitives
      ensures Valid()
      ensures forall j :: 0 <= j < |primitives| ==>
                primitives[j].FrameOf() == MoveLeafOpt(t, old(primitives[j].FrameOf()))
    {
      var i := 0;
      while i < |primitives|
        invariant 0 <= i <= |primitives|
        invariant Leaves(primitives)
        invariant forall j :: 0 <= j < i ==> primitives[j].FrameOf() == MoveLeafOpt(t, old(primitives[j].FrameOf()))
        invariant forall j :: i <= j < |primitives| ==> primitives[j].FrameOf() == old(primitives[j].FrameOf())
      {
        primitives[i].LeafMakeTrans(t);
        i := i + 1;
      }
    }

    /** `_update_connections`: every connection point goes through the transform, in order. */
    method UpdateConnections(t: Option<Trans>)
      modifies this`connections
      ensures connections == if t.Some? then MapPoints(t.value, old(connections)) else old(connections)
    {
      if t.Some? {
        var i := 0;
        while i < |connections|
          invariant 0 <= i <= |connections| == |old(connections)|
          invariant forall j :: 0 <= j < i ==> connections[j] == Apply(t.value, old(connections)[j])
          invariant forall j :: i <= j < |connections| ==> connections[j] == old(connections)[j]
        {
          connections := connections[i := Apply(t.value, connections[i])];
          i := i + 1;
        }
      }
    }

    /**
     * `_update_alpha`: each angle's unit vector goes through the transform
     * with its displacement zeroed, and the angle is read back from it.
     */
    method UpdateAlpha(t: Option<Trans>)
      modifies this`angleConnections
      ensures angleConnections == if t.Some? then MapAngles(t.value, old(angleConnections)) else old(angleConnections)
    {
      if t.Some? {
        var lin := WithoutDisp(t.value);
        var i := 0;
        while i < |angleConnections|
          invariant 0 <= i <= |angleConnections| == |old(angleConnections)|
          invariant forall j :: 0 <= j < i ==> angleConnections[j] == TransformAngle(t.value, old(angleConnections)[j])
          invariant forall j :: i <= j < |angleConnections| ==> angleConnections[j] == old(angleConnections)[j]
        {
          var v := Apply(lin, UnitVector(angleConnections[i]));
          AngleViaUnitVector(t.value, angleConnections[i]);
          angleConnections := angleConnections[i := AngleOf(v)];
          i := i + 1;
        }
      }
    }

    /** `_update_origin`: the origin goes through the transform. */
    method UpdateOrigin(t: Option<Trans>)
      modifies this`origin
      ensures origin == if t.Some? then Apply(t.value, old(origin)) else old(origin)
    {
      if t.Some? {
        origin := Apply(t.value, origin);
      }
    }

    // ------------------------------------------------------------ placement

    /**
     * `Element_Base.place` into a region: add the selected metal region,
     * subtract the selected empty region, merge when asked.
     */
    method PlaceLeaf(dest: Region, name: Option<string>, merge: bool)
      requires IsLeaf()
      modifies dest
      ensures dest.shapes == (old(dest.shapes) + SelectRegions(FrameOf(), name).0) - SelectRegions(FrameOf(), name).1
      ensures dest.history == old(dest.history) + LeafPlaceOps(FrameOf(), name, merge)
    {
      var m, e;
      if name.None? {
        m, e := metalRegion, emptyRegion;
      } else {
        m := Lookup(metalRegion, metalRegions, name.value);
        e := Lookup(emptyRegion, emptyRegions, name.value);
      }
      dest.AddRegion(m);
      dest.SubtractRegion(e);
      if merge {
        dest.Merge();
      }
    }

    /** `place` with the default `merge=False`, dispatched on the kind of element. */
    method Place(dest: Region, name: Option<string>)
      requires Valid()
      modifies dest
      ensures dest.shapes == PlaceNode(Model(), name, old(dest.shapes))
      ensures dest.history == old(dest.history) + PlaceOps(Model(), name)
    {
      if isComplex {
        ComplexPlace(dest, name);
      } else {
        PlaceLeaf(dest, name, false);
      }
    }

    /** `Complex_Base.place` into a region: every primitive in insertion order. */
    method ComplexPlace(dest: Region, name: Option<string>)
      requires Valid() && isComplex
      modifies dest
      ensures dest.shapes == PlaceNode(Model(), name, old(dest.shapes))
      ensures dest.history == old(dest.history) + PlaceOps(Model(), name)
    {
      ghost var n := Model();
      var i := 0;
      while i < |primitives|
        invariant 0 <= i <= |primitives|
        invariant dest.shapes == PlaceChildren(n, i, name, old(dest.shapes))
        invariant dest.history == old(dest.history) + PlaceChildrenOps(n, i, name)
      {
        primitives[i].PlaceLeaf(dest, name, false);
        i := i + 1;
      }
    }

    // ---------------------------------------------------------------- ports

    /**
     * `add_sonnet_port`: record the connection at `idx` (negative indices
     * count from the end); an index outside the list raises and records nothing.
     */
    method AddSonnetPort(idx: int) returns (r: Outcome<Error>)
      modifies this`sonnetPortConnections
      ensures 0 <= |connections| + idx && idx < |connections| ==>
                r == Pass && sonnetPortConnections == old(sonnetPortConnections) + [connections[PyIndex(|connections|, idx)]]
      ensures !(0 <= |connections| + idx && idx < |connections|) ==>
                r == Fail(IndexError) && sonnetPortConnections == old(sonnetPortConnections)
    {
      if 0 <= |connections| + idx && idx < |connections| {
        sonnetPortConnections := sonnetPortConnections + [connections[PyIndex(|connections|, idx)]];
        r := Pass;
      } else {
        r := Fail(IndexError);
      }
    }
  }
}
