/**
 * The layout tree as a value: what an element or a composite holds, and the
 * meaning of transforming, constructing and placing it. The classes in
 * module BaseClasses are proved to follow these definitions.
 */
module Nodes {
  import opened Wrappers
  import opened Geometry

  /**
   * An entry of an element's named-region dictionary: the element's own
   * primary region object (so it follows every change made to it), or a
   * region of its own.
   */
  datatype Slot = Primary | Separate(shapes: PointSet)

  /** The attributes every element carries. */
  datatype Frame = Frame(
    origin: Point,
    connections: seq<Point>,
    connectionEdges: seq<int>,
    sonnetPorts: seq<Point>,
    angles: seq<Quadrant>,
    metal: PointSet,
    empty: PointSet,
    metalRegions: map<string, Slot>,
    emptyRegions: map<string, Slot>)

  /** A leaf element, or a composite with its named primitives in insertion order. */
  datatype Node =
    | Leaf(frame: Frame)
    | Complex(frame: Frame, names: seq<string>, children: seq<Node>)

  /** The `"default"` entries are the primary region objects themselves. */
  predicate Aliased(f: Frame) {
    && "default" in f.metalRegions && f.metalRegions["default"] == Primary
    && "default" in f.emptyRegions && f.emptyRegions["default"] == Primary
  }

  /** The region a dictionary holds under `k`; an empty region when `k` is absent. */
  function Lookup(primary: PointSet, regions: map<string, Slot>, k: string): PointSet {
    if k !in regions then {}
    else match regions[k]
      case Primary => primary
      case Separate(s) => s
  }

  predicate DistinctNames(names: seq<string>) {
    forall i, j :: 0 <= i < j < |names| ==> names[i] != names[j]
  }

  predicate WellFormed(n: Node)
    decreases n
  {
    && Aliased(n.frame)
    && (n.Complex? ==>
          && |n.names| == |n.children|
          && DistinctNames(n.names)
          && forall i :: 0 <= i < |n.children| ==> WellFormed(n.children[i]))
  }

  // ------------------------------------------------------------ transforms

  function MapPoints(t: Trans, ps: seq<Point>): seq<Point> {
    seq(|ps|, i requires 0 <= i < |ps| => Apply(t, ps[i]))
  }

  function MapAngles(t: Trans, angles: seq<Quadrant>): seq<Quadrant> {
    seq(|angles|, i requires 0 <= i < |angles| => TransformAngle(t, angles[i]))
  }

  /** Connections and angles moved by `t`; everything else kept. */
  function MoveMarkers(t: Trans, f: Frame): Frame {
    f.(connections := MapPoints(t, f.connections), angles := MapAngles(t, f.angles))
  }

  /** The angles an element ends with do not depend on the transform's displacement. */
  lemma AnglesIgnoreDisplacement(t: Trans, d: Point, f: Frame)
    ensures MoveMarkers(t, f).angles == MoveMarkers(t.(disp := d), f).angles
  {
  }

  /**
   * A leaf's transform: both primary regions (and with them every dictionary
   * entry that is the primary object) and the markers. Separate named
   * regions, the origin, the edges and the recorded ports stay where they are.
   */
  function MoveLeaf(t: Trans, f: Frame): Frame {
    MoveMarkers(t, f).(metal := TransformRegion(t, f.metal), empty := TransformRegion(t, f.empty))
  }

  /**
   * `make_trans`: a leaf moves its regions and markers; a composite forwards
   * the transform to every primitive and moves only its own markers, leaving
   * its region snapshot as it was.
   */
  function MakeTransNode(t: Trans, n: Node): Node
    decreases n
  {
    match n
    case Leaf(f) => Leaf(MoveLeaf(t, f))
    case Complex(f, names, ch) =>
      Complex(MoveMarkers(t, f), names,
              seq(|ch|, i requires 0 <= i < |ch| => MakeTransNode(t, ch[i])))
  }

  /** A leaf's frame under an optional transform. */
  function MoveLeafOpt(t: Option<Trans>, f: Frame): Frame {
    if t.Some? then MoveLeaf(t.value, f) else f
  }

  /**
   * What `make_trans` does to an element's own frame: a leaf moves its
   * regions and markers, a composite only its markers.
   */
  function MoveOwn(composite: bool, t: Trans, f: Frame): Frame {
    if composite then MoveMarkers(t, f) else MoveLeaf(t, f)
  }

  function MoveMarkersOpt(t: Option<Trans>, f: Frame): Frame {
    if t.Some? then MoveMarkers(t.value, f) else f
  }

  function MoveOwnOpt(composite: bool, t: Option<Trans>, f: Frame): Frame {
    if t.Some? then MoveOwn(composite, t.value, f) else f
  }

  /**
   * A composite of leaves whose own markers and whose every leaf are moved
   * by `t` is the moved composite.
   */
  lemma MakeTransComplexParts(t: Trans, n: Node, f: Frame, kids: seq<Node>)
    requires n.Complex? && f == MoveMarkers(t, n.frame) && |kids| == |n.children|
    requires forall j :: 0 <= j < |kids| ==> n.children[j].Leaf? && kids[j] == Leaf(MoveLeaf(t, n.children[j].frame))
    ensures Complex(f, n.names, kids) == MakeTransNode(t, n)
  {
  }

  lemma MarkersCompose(a: Trans, b: Trans, f: Frame)
    ensures MoveMarkers(a, MoveMarkers(b, f)) == MoveMarkers(Compose(a, b), f)
  {
    var c := Compose(a, b);
    var ps := MapPoints(a, MapPoints(b, f.connections));
    forall i | 0 <= i < |ps| ensures ps[i] == MapPoints(c, f.connections)[i] {
      ApplyCompose(a, b, f.connections[i]);
    }
    var qs := MapAngles(a, MapAngles(b, f.angles));
    forall i | 0 <= i < |qs| ensures qs[i] == MapAngles(c, f.angles)[i] {
      AngleCompose(a, b, f.angles[i]);
    }
  }

  /** Two transforms in a row act as their composition, on the whole tree. */
  lemma {:induction false} MakeTransCompose(a: Trans, b: Trans, n: Node)
    ensures MakeTransNode(a, MakeTransNode(b, n)) == MakeTransNode(Compose(a, b), n)
    decreases n
  {
    MarkersCompose(a, b, n.frame);
    match n
    case Leaf(f) =>
      TransformRegionCompose(a, b, f.metal);
      TransformRegionCompose(a, b, f.empty);
    case Complex(f, names, ch) =>
      var lhs := MakeTransNode(a, MakeTransNode(b, n)).children;
      var rhs := MakeTransNode(Compose(a, b), n).children;
      assert |lhs| == |rhs| == |ch|;
      forall i | 0 <= i < |ch| ensures lhs[i] == rhs[i] {
        MakeTransCompose(a, b, ch[i]);
      }
  }

  /** Transforming keeps every list's length and order of names, and the aliases. */
  lemma {:induction false} MakeTransKeepsShape(t: Trans, n: Node)
    requires WellFormed(n)
    ensures WellFormed(MakeTransNode(t, n))
    ensures |MakeTransNode(t, n).frame.connections| == |n.frame.connections|
    ensures |MakeTransNode(t, n).frame.angles| == |n.frame.angles|
    ensures MakeTransNode(t, n).Complex? == n.Complex?
    decreases n
  {
    if n.Complex? {
      forall i | 0 <= i < |n.children|
        ensures WellFormed(MakeTransNode(t, n).children[i])
      {
        MakeTransKeepsShape(t, n.children[i]);
      }
    }
  }

  /** The identity transform leaves every element as it was. */
  lemma {:induction false} MakeTransIdentity(n: Node)
    ensures MakeTransNode(Identity, n) == n
    decreases n
  {
    var f := n.frame;
    assert MapPoints(Identity, f.connections) == f.connections;
    assert MapAngles(Identity, f.angles) == f.angles;
    match n
    case Leaf(_) =>
      assert TransformRegion(Identity, f.metal) == f.metal;
      assert TransformRegion(Identity, f.empty) == f.empty;
    case Complex(_, _, ch) =>
      var moved := MakeTransNode(Identity, n).children;
      forall i | 0 <= i < |ch| ensures moved[i] == ch[i] {
        MakeTransIdentity(ch[i]);
      }
  }

  /** `make_trans` with the inverse transform undoes `make_trans`, on the whole tree. */
  lemma MakeTransUndo(t: Trans, n: Node)
    ensures MakeTransNode(Inverse(t), MakeTransNode(t, n)) == n
  {
    MakeTransCompose(Inverse(t), t, n);
    ComposeInverse(t);
    MakeTransIdentity(n);
  }

  // ------------------------------------------------------------ placement

  /**
   * The regions `place` uses: the primary pair when no name is given, the
   * named entries otherwise, and an empty region for a name not present.
   */
  function SelectRegions(f: Frame, name: Option<string>): (PointSet, PointSet) {
    match name
    case None => (f.metal, f.empty)
    case Some(k) => (Lookup(f.metal, f.metalRegions, k), Lookup(f.empty, f.emptyRegions, k))
  }

  /** Naming `"default"` selects exactly what naming nothing selects. */
  lemma DefaultNameIsPrimary(f: Frame)
    requires Aliased(f)
    ensures SelectRegions(f, Some("default")) == SelectRegions(f, None)
  {
  }

  /**
   * `place` into a region: a leaf adds its metal and then removes its empty
   * region; a composite places its primitives one after the other.
   */
  function PlaceNode(n: Node, name: Option<string>, d: PointSet): PointSet
    decreases n, 1
  {
    match n
    case Leaf(f) =>
      var (m, e) := SelectRegions(f, name);
      (d + m) - e
    case Complex(_, _, ch) => PlaceChildren(n, |ch|, name, d)
  }

  /** The first `k` primitives of a composite, placed in insertion order. */
  function PlaceChildren(n: Node, k: nat, name: Option<string>, d: PointSet): PointSet
    requires n.Complex? && k <= |n.children|
    decreases n, 0, k
  {
    if k == 0 then d
    else PlaceNode(n.children[k - 1], name, PlaceChildren(n, k - 1, name, d))
  }

  /** The calls a placement makes on the destination region. */
  datatype RegionOp = Added(shapes: PointSet) | Subtracted(shapes: PointSet) | Merged

  /** A leaf's calls: add, subtract, then merge only when asked. */
  function LeafPlaceOps(f: Frame, name: Option<string>, merge: bool): seq<RegionOp> {
    var (m, e) := SelectRegions(f, name);
    [Added(m), Subtracted(e)] + (if merge then [Merged] else [])
  }

  /** The calls of a placement with the default `merge=False`. */
  function PlaceOps(n: Node, name: Option<string>): seq<RegionOp>
    decreases n, 1
  {
    match n
    case Leaf(f) => LeafPlaceOps(f, name, false)
    case Complex(_, _, ch) => PlaceChildrenOps(n, |ch|, name)
  }

  function PlaceChildrenOps(n: Node, k: nat, name: Option<string>): seq<RegionOp>
    requires n.Complex? && k <= |n.children|
    decreases n, 0, k
  {
    if k == 0 then [] else PlaceChildrenOps(n, k - 1, name) + PlaceOps(n.children[k - 1], name)
  }

  /** With `merge=False` no placement ever merges the destination. */
  lemma {:induction false} PlaceNeverMerges(n: Node, name: Option<string>)
    ensures Merged !in PlaceOps(n, name)
    decreases n, 1
  {
    if n.Complex? {
      PlaceChildrenNeverMerge(n, |n.children|, name);
    }
  }

  lemma {:induction false} PlaceChildrenNeverMerge(n: Node, k: nat, name: Option<string>)
    requires n.Complex? && k <= |n.children|
    ensures Merged !in PlaceChildrenOps(n, k, name)
    decreases n, 0, k
  {
    if k > 0 {
      PlaceChildrenNeverMerge(n, k - 1, name);
      PlaceNeverMerges(n.children[k - 1], name);
    }
  }

  /**
   * Every placement has the shape `d |-> (d - removed) + added`: an
   * independent description of `PlaceNode` that does not mention order.
   */
  datatype Effect = Effect(removed: PointSet, added: PointSet)

  function ApplyEffect(e: Effect, d: PointSet): PointSet {
    (d - e.removed) + e.added
  }

  /** The effect of `first` followed by `second`. */
  function Then(first: Effect, second: Effect): Effect {
    Effect(first.removed + second.removed, (first.added - second.removed) + second.added)
  }

  lemma ThenApplies(first: Effect, second: Effect, d: PointSet)
    ensures ApplyEffect(second, ApplyEffect(first, d)) == ApplyEffect(Then(first, second), d)
  {
  }

  function PlaceEffect(n: Node, name: Option<string>): Effect
    decreases n, 1
  {
    match n
    case Leaf(f) =>
      var (m, e) := SelectRegions(f, name);
      Effect(e, m - e)
    case Complex(_, _, ch) => ChildrenEffect(n, |ch|, name)
  }

  function ChildrenEffect(n: Node, k: nat, name: Option<string>): Effect
    requires n.Complex? && k <= |n.children|
    decreases n, 0, k
  {
    if k == 0 then Effect({}, {})
    else Then(ChildrenEffect(n, k - 1, name), PlaceEffect(n.children[k - 1], name))
  }

  lemma {:induction false} PlaceIsEffect(n: Node, name: Option<string>, d: PointSet)
    ensures PlaceNode(n, name, d) == ApplyEffect(PlaceEffect(n, name), d)
    decreases n, 1
  {
    if n.Complex? {
      PlaceChildrenIsEffect(n, |n.children|, name, d);
    }
  }

  lemma {:induction false} PlaceChildrenIsEffect(n: Node, k: nat, name: Option<string>, d: PointSet)
    requires n.Complex? && k <= |n.children|
    ensures PlaceChildren(n, k, name, d) == ApplyEffect(ChildrenEffect(n, k, name), d)
    decreases n, 0, k
  {
    if k > 0 {
      var prev := PlaceChildren(n, k - 1, name, d);
      PlaceChildrenIsEffect(n, k - 1, name, d);
      PlaceIsEffect(n.children[k - 1], name, prev);
      ThenApplies(ChildrenEffect(n, k - 1, name), PlaceEffect(n.children[k - 1], name), d);
    }
  }

  /** Placing twice into the same region gives what placing once gives. */
  lemma PlaceIdempotent(n: Node, name: Option<string>, d: PointSet)
    ensures PlaceNode(n, name, PlaceNode(n, name, d)) == PlaceNode(n, name, d)
  {
    PlaceIsEffect(n, name, d);
    PlaceIsEffect(n, name, PlaceNode(n, name, d));
  }

  /** No node of the tree has a region under `k`. */
  predicate NameAbsent(n: Node, k: string)
    decreases n
  {
    && k !in n.frame.metalRegions && k !in n.frame.emptyRegions
    && (n.Complex? ==> forall i :: 0 <= i < |n.children| ==> NameAbsent(n.children[i], k))
  }

  /** Placing under a name nobody has leaves the destination as it was. */
  lemma {:induction false} UnknownNameLeavesDest(n: Node, k: string, d: PointSet)
    requires NameAbsent(n, k)
    ensures PlaceNode(n, Some(k), d) == d
    decreases n, 1
  {
    if n.Complex? {
      UnknownNameLeavesDestChildren(n, |n.children|, k, d);
    }
  }

  lemma {:induction false} UnknownNameLeavesDestChildren(n: Node, m: nat, k: string, d: PointSet)
    requires n.Complex? && m <= |n.children| && NameAbsent(n, k)
    ensures PlaceChildren(n, m, Some(k), d) == d
    decreases n, 0, m
  {
    if m > 0 {
      UnknownNameLeavesDestChildren(n, m - 1, k, d);
      UnknownNameLeavesDest(n.children[m - 1], k, d);
    }
  }

  /**
   * Insertion order decides erasure: a primitive whose empty region covers
   * an earlier primitive's metal erases it, and the other way round it does not.
   */
  lemma EraseOrdering(f: Frame, a: Frame, b: Frame, s: PointSet, d: PointSet)
    requires a.metal == s && a.empty == {} && b.metal == {} && b.empty == s
    ensures PlaceNode(Complex(f, ["a", "b"], [Leaf(a), Leaf(b)]), None, d) == d - s
    ensures PlaceNode(Complex(f, ["b", "a"], [Leaf(b), Leaf(a)]), None, d) == d + s
  {
    var ab := Complex(f, ["a", "b"], [Leaf(a), Leaf(b)]);
    var ba := Complex(f, ["b", "a"], [Leaf(b), Leaf(a)]);
    assert PlaceChildren(ab, 1, None, d) == (d + s) - {};
    assert PlaceChildren(ab, 2, None, d) == ((d + s) - {} + {}) - s;
    assert ((d + s) - {} + {}) - s == d - s;
    assert PlaceChildren(ba, 1, None, d) == (d + {}) - s;
    assert PlaceChildren(ba, 2, None, d) == ((d + {}) - s + s) - {};
    assert ((d + {}) - s + s) - {} == d + s;
  }

  // ---------------------------------------------------------- construction

  /** What a leaf's `init_regions` authors, in local coordinates. */
  datatype Shape = Shape(
    metal: PointSet,
    empty: PointSet,
    connections: seq<Point>,
    connectionEdges: seq<int>,
    angles: seq<Quadrant>,
    metalRegions: map<string, Slot>,
    emptyRegions: map<string, Slot>)

  /** A frame after `init_regions`: the authored shape, its dictionary entries added. */
  function WithShape(f: Frame, s: Shape): Frame {
    f.(metal := s.metal, empty := s.empty,
       connections := s.connections, connectionEdges := s.connectionEdges, angles := s.angles,
       metalRegions := f.metalRegions + s.metalRegions,
       emptyRegions := f.emptyRegions + s.emptyRegions)
  }

  /** A frame after a composite's `init_primitives` set its own markers. */
  function WithMarkers(f: Frame, connections: seq<Point>, edges: seq<int>, angles: seq<Quadrant>): Frame {
    f.(connections := connections, connectionEdges := edges, angles := angles)
  }

  /** A fresh element's frame: the origin argument, nothing else yet. */
  function BlankFrame(origin: Point): Frame {
    Frame(origin, [], [], [], [], {}, {}, map["default" := Primary], map["default" := Primary])
  }

  function WithOrigin(n: Node, o: Point): Node {
    match n
    case Leaf(f) => Leaf(f.(origin := o))
    case Complex(f, names, ch) => Complex(f.(origin := o), names, ch)
  }

  /** Where local (0,0) lands under the first two construction steps. */
  function InitOffset(t: Option<Trans>): Point {
    if t.None? then Origin
    else Apply(WithoutDisp(t.value), Apply(DispOnly(t.value), Origin))
  }

  /**
   * Construction: the displacement part of `t`, then `t` with its
   * displacement zeroed, then a translation to the origin argument; the
   * origin then moves by the image of local (0,0).
   */
  function InitTransNode(n: Node, t: Option<Trans>): Node {
    var o := n.frame.origin;
    var n1 := if t.Some? then MakeTransNode(WithoutDisp(t.value), MakeTransNode(DispOnly(t.value), n)) else n;
    WithOrigin(MakeTransNode(Translation(o), n1), Add(o, InitOffset(t)))
  }

  /** The three construction moves applied to one frame; `o` is the origin argument. */
  function InitSteps(composite: bool, f: Frame, o: Point, t: Option<Trans>): Frame {
    var f1 := if t.Some? then MoveOwn(composite, WithoutDisp(t.value), MoveOwn(composite, DispOnly(t.value), f)) else f;
    MoveOwn(composite, Translation(o), f1)
  }

  /** An element's own frame after construction, its origin resolved. */
  function InitOwn(composite: bool, f: Frame, t: Option<Trans>): Frame {
    InitSteps(composite, f, f.origin, t).(origin := Add(f.origin, InitOffset(t)))
  }

  /**
   * Constructing a composite of leaves moves its own markers and every leaf
   * through the same three steps, then resolves the composite's origin.
   */
  lemma InitTransComplexParts(n: Node, t: Option<Trans>, f: Frame, kids: seq<Node>)
    requires n.Complex? && f == InitOwn(true, n.frame, t) && |kids| == |n.children|
    requires forall j :: 0 <= j < |kids| ==>
               n.children[j].Leaf? && kids[j] == Leaf(InitSteps(false, n.children[j].frame, n.frame.origin, t))
    ensures Complex(f, n.names, kids) == InitTransNode(n, t)
  {
    var o := n.frame.origin;
    var ch := n.children;
    var n1 := n;
    if t.Some? {
      var d, l := DispOnly(t.value), WithoutDisp(t.value);
      var c1 := seq(|ch|, j requires 0 <= j < |ch| => Leaf(MoveLeaf(d, ch[j].frame)));
      MakeTransComplexParts(d, n, MoveMarkers(d, n.frame), c1);
      var m1 := Complex(MoveMarkers(d, n.frame), n.names, c1);
      var c2 := seq(|ch|, j requires 0 <= j < |ch| => Leaf(MoveLeaf(l, c1[j].frame)));
      MakeTransComplexParts(l, m1, MoveMarkers(l, m1.frame), c2);
      n1 := Complex(MoveMarkers(l, m1.frame), n.names, c2);
    }
    var c3 := seq(|ch|, j requires 0 <= j < |ch| => Leaf(MoveLeaf(Translation(o), n1.children[j].frame)));
    MakeTransComplexParts(Translation(o), n1, MoveMarkers(Translation(o), n1.frame), c3);
    assert c3 == kids;
  }

  /** The single transform that construction amounts to. */
  function NetInit(o: Point, t: Trans): Trans {
    Compose(Translation(o), Compose(WithoutDisp(t), DispOnly(t)))
  }

  /**
   * Construction is one transform, the origin ends where local (0,0) goes,
   * and that is the origin argument plus the linear part applied to `disp`.
   */
  lemma ConstructionIsNetTransform(n: Node, t: Trans)
    ensures InitTransNode(n, Some(t))
         == WithOrigin(MakeTransNode(NetInit(n.frame.origin, t), n), Apply(NetInit(n.frame.origin, t), Origin))
  {
    var o := n.frame.origin;
    var lin, dsp := WithoutDisp(t), DispOnly(t);
    MakeTransCompose(lin, dsp, n);
    MakeTransCompose(Translation(o), Compose(lin, dsp), n);
    ApplyCompose(Translation(o), Compose(lin, dsp), Origin);
    ApplyCompose(lin, dsp, Origin);
    var off := Apply(lin, Apply(dsp, Origin));
    assert InitOffset(Some(t)) == off;
    assert Apply(Translation(o), off) == Add(o, off);
  }

  /** The resolved origin is the argument plus the linear part applied to `disp`. */
  lemma ConstructedOrigin(n: Node, t: Trans)
    ensures InitTransNode(n, Some(t)).frame.origin == Add(n.frame.origin, Linear(t, t.disp))
  {
    assert Apply(DispOnly(t), Origin) == t.disp;
    assert Apply(WithoutDisp(t), t.disp) == Linear(t, t.disp);
  }

  /** A point authored at `p` ends at `L(p) + L(disp) + origin`. */
  lemma NetInitImage(o: Point, t: Trans, p: Point)
    ensures Apply(NetInit(o, t), p) == Add(Add(Linear(t, p), Linear(t, t.disp)), o)
  {
    ApplyCompose(Translation(o), Compose(WithoutDisp(t), DispOnly(t)), p);
    ApplyCompose(WithoutDisp(t), DispOnly(t), p);
    LinearAdditive(t, p, t.disp);
  }

  /**
   * Because the displacement is applied before the linear part, it is
   * itself rotated: constructing with a quarter turn and displacement (1,0)
   * moves the origin by (0,1), not by the displacement (1,0).
   */
  lemma DisplacementIsRotated(n: Node, t: Trans)
    requires t.rot == 1 && !t.mirror && t.disp == Point(1, 0)
    ensures InitTransNode(n, Some(t)).frame.origin == Add(n.frame.origin, Point(0, 1))
  {
    ConstructedOrigin(n, t);
    assert Linear(t, t.disp) == Point(0, 1);
  }

  /** Without a constructor transform only the translation to the origin remains. */
  lemma ConstructionWithoutTrans(n: Node)
    ensures InitTransNode(n, None) == MakeTransNode(Translation(n.frame.origin), n)
  {
    var o := n.frame.origin;
    var moved := MakeTransNode(Translation(o), n);
    assert Add(o, Origin) == o;
    assert moved.frame.origin == o;
    match moved
    case Leaf(f) =>
    case Complex(f, names, ch) =>
  }

  // ------------------------------------------------------ region snapshot

  /** The union of the primitives' metal regions, accumulated in order. */
  function SumMetal(ch: seq<Node>): PointSet {
    if ch == [] then {} else SumMetal(ch[..|ch| - 1]) + ch[|ch| - 1].frame.metal
  }

  function SumEmpty(ch: seq<Node>): PointSet {
    if ch == [] then {} else SumEmpty(ch[..|ch| - 1]) + ch[|ch| - 1].frame.empty
  }

  /** The composite's one-time snapshot of its primitives' regions. */
  function Snapshot(n: Node): Node
    requires n.Complex?
  {
    var m := n.frame.metal + SumMetal(n.children);
    var e := n.frame.empty + SumEmpty(n.children);
    Complex(n.frame.(metal := m, empty := e), n.names, n.children)
  }

  /** A point lies in the summed metal exactly when some primitive has it. */
  lemma {:induction false} SumMetalMember(ch: seq<Node>, p: Point)
    ensures p in SumMetal(ch) <==> exists i :: 0 <= i < |ch| && p in ch[i].frame.metal
  {
    if ch != [] {
      var init := ch[..|ch| - 1];
      SumMetalMember(init, p);
      if p in SumMetal(init) {
        var i :| 0 <= i < |init| && p in init[i].frame.metal;
        assert ch[i] == init[i];
      }
      if exists i :: 0 <= i < |ch| && p in ch[i].frame.metal {
        var i :| 0 <= i < |ch| && p in ch[i].frame.metal;
        if i < |ch| - 1 {
          assert init[i] == ch[i];
        }
      }
    }
  }

  /** Moving every primitive moves their union. */
  lemma {:induction false} SumMetalMoves(t: Trans, ch: seq<Node>)
    requires forall i :: 0 <= i < |ch| ==> ch[i].Leaf?
    ensures SumMetal(seq(|ch|, i requires 0 <= i < |ch| => MakeTransNode(t, ch[i])))
         == TransformRegion(t, SumMetal(ch))
  {
    var moved := seq(|ch|, i requires 0 <= i < |ch| => MakeTransNode(t, ch[i]));
    if ch != [] {
      var init := ch[..|ch| - 1];
      SumMetalMoves(t, init);
      assert moved[..|moved| - 1] == seq(|init|, i requires 0 <= i < |init| => MakeTransNode(t, init[i]));
      TransformRegionUnion(t, SumMetal(init), ch[|ch| - 1].frame.metal);
    }
  }

  /** A finite non-empty set has a point that maximises `key`. */
  lemma {:induction false} MaxBy(s: PointSet, key: Point -> int) returns (p: Point)
    requires s != {}
    ensures p in s && forall q :: q in s ==> key(q) <= key(p)
    decreases |s|
  {
    var a :| a in s;
    if s == {a} {
      p := a;
    } else {
      var b := MaxBy(s - {a}, key);
      p := if key(a) <= key(b) then b else a;
    }
  }

  /** A non-trivial translation moves every finite non-empty region off itself. */
  lemma TranslationMovesRegion(s: PointSet, d: Point)
    requires s != {} && d != Origin
    ensures TransformRegion(Translation(d), s) != s
  {
    var key: Point -> int :=
      if d.x > 0 then (q: Point) => q.x
      else if d.x < 0 then (q: Point) => -q.x
      else if d.y > 0 then (q: Point) => q.y
      else (q: Point) => -q.y;
    var p := MaxBy(s, key);
    var moved := Apply(Translation(d), p);
    assert moved in TransformRegion(Translation(d), s);
    assert key(moved) > key(p);
    assert moved !in s;
  }

  /**
   * The snapshot does not follow later transforms: after a non-trivial
   * translation of a composite of leaves, its metal snapshot is unchanged
   * while the primitives' metal has moved, so the two no longer agree.
   */
  lemma SnapshotGoesStale(n: Node, d: Point)
    requires n.Complex? && forall i :: 0 <= i < |n.children| ==> n.children[i].Leaf?
    requires n.frame.metal == SumMetal(n.children) && n.frame.metal != {} && d != Origin
    ensures MakeTransNode(Translation(d), n).frame.metal == n.frame.metal
    ensures SumMetal(MakeTransNode(Translation(d), n).children) == TransformRegion(Translation(d), n.frame.metal)
    ensures MakeTransNode(Translation(d), n).frame.metal != SumMetal(MakeTransNode(Translation(d), n).children)
  {
    SumMetalMoves(Translation(d), n.children);
    TranslationMovesRegion(n.frame.metal, d);
  }

  /**
   * The snapshot adds up all metal and all empty regions separately, so it
   * forgets insertion order: when a primitive's metal follows another's
   * empty region over the same points, placing the composite's own summed
   * regions erases those points, while placing its primitives in order
   * keeps them.
   */
  lemma SnapshotIgnoresOrder(f: Frame, a: Frame, b: Frame, s: PointSet, d: PointSet)
    requires f.metal == {} && f.empty == {}
    requires a.metal == s && a.empty == {} && b.metal == {} && b.empty == s && s != {}
    ensures PlaceNode(Leaf(Snapshot(Complex(f, ["b", "a"], [Leaf(b), Leaf(a)])).frame), None, d) == d - s
    ensures PlaceNode(Snapshot(Complex(f, ["b", "a"], [Leaf(b), Leaf(a)])), None, d) == d + s
    ensures d - s != d + s
  {
    var ch := [Leaf(b), Leaf(a)];
    var n := Snapshot(Complex(f, ["b", "a"], ch));
    assert ch[..1] == [Leaf(b)] && [Leaf(b)][..0] == [];
    assert SumMetal([Leaf(b)]) == {} + b.metal && SumEmpty([Leaf(b)]) == {} + b.empty;
    assert SumMetal(ch) == SumMetal([Leaf(b)]) + a.metal;
    assert SumEmpty(ch) == SumEmpty([Leaf(b)]) + a.empty;
    assert n.frame.metal == s && n.frame.empty == s;
    assert PlaceChildren(n, 1, None, d) == (d + {}) - s;
    assert PlaceChildren(n, 2, None, d) == ((d + {}) - s + s) - {};
    assert ((d + {}) - s + s) - {} == d + s;
    var p :| p in s;
    assert p in d + s && p !in d - s;
  }
}
