# Layout composition engine, modelled in Dafny

This project models the two base classes of a chip-layout library,
`Element_Base` and `Complex_Base` in `ClassLib/BaseClasses.py`, and proves
properties of the model.

- A leaf element holds a metal region and an empty region. It also keeps
  two dictionaries of named regions, whose `"default"` entries are the
  primary region objects themselves. Besides the regions it has an ordered
  list of connection points, a list of connection angles, the ports chosen
  for export and a mutable origin.
- A composite holds its primitives in insertion order under distinct names.

Three operations are modelled:

- **`make_trans`** moves the regions of a leaf. It also moves each connection
  point one at a time, and each angle through its unit vector with the
  displacement zeroed. A composite forwards the transform to every
  primitive, then moves only its own connections and angles.
- **Construction** applies three steps: the constructor transform's
  displacement, then that transform with its displacement zeroed, then a
  translation to the origin argument. The origin then moves by wherever
  local (0,0) went. A composite finally sums its primitives' regions into
  its own regions, once.
- **`place`** into a region adds the selected metal region, subtracts the
  selected empty region and merges only when asked. A composite places its
  primitives in insertion order.

Files:

- `geometry.dfy` (module `Geometry`) covers points and simple transforms:
  the eight orientations of KLayout's `Trans` with an integer
  displacement. It also has composition, inverse, angles as quarter turns
  and regions as finite point sets.
- `nodes.dfy` (module `Nodes`) is the value model. A `Frame` holds one
  element's attributes. A `Node` is a leaf, or a composite of named child
  nodes. It defines what transforming, constructing and placing mean, and
  holds the lemmas about them.
- `base_classes.dfy` (module `BaseClasses`) holds the classes. `Element`
  covers both base classes, and a flag chooses the overriding methods.
  `Region` is the destination of `place`. It logs every call made on it
  as ghost state, so the order of add, subtract and merge can be stated.
  Methods with loops are proved against the functions of `Nodes`.
- `wrappers.dfy` (module `Wrappers`) holds `Option` and `Outcome`.

Three behaviours of the code are easy to misread; the model follows the
code:

- Construction applies the displacement *before* the linear part. So the
  displacement is itself rotated, and a point authored at `p` ends at
  `L(p) + L(disp) + origin`, not `L(p) + disp + origin`. Lemmas
  `Nodes.NetInitImage` and `Nodes.DisplacementIsRotated` prove this.
- `make_trans` transforms only `metal_region` and `empty_region`. Named
  entries that are those very objects (the `"default"` aliases) follow
  them. Other named regions stay where they are.
- A composite's regions are a snapshot taken once, at construction. They
  do not follow later transforms (`Nodes.SnapshotGoesStale`). The snapshot
  also adds all metal regions and all empty regions separately, so it
  forgets the insertion order that `place` respects. Placing the summed
  regions can erase points that placing the primitives in order keeps
  (`Nodes.SnapshotIgnoresOrder`).

## Model

| member | source | states |
|---|---|---|
| Geometry.ApplyCompose | ClassLib/BaseClasses.py:72-87 | applying the composition of two transforms is applying the inner one, then the outer one, to any point |
| Geometry.ApplyInverse | ClassLib/BaseClasses.py:89-95 | every transform has an inverse that undoes it on any point, on both sides |
| Geometry.AngleViaUnitVector | ClassLib/BaseClasses.py:110-119 | the unit-vector route (zero the displacement, transform the unit vector, read back its angle) gives the mirrored, then rotated, angle, whatever the displacement |
| Geometry.DisplacedUnitVectorMisleads | ClassLib/BaseClasses.py:112-113 | without zeroing the displacement the route can report the opposite direction, so zeroing it is needed |
| Geometry.AngleCompose | ClassLib/BaseClasses.py:110-119 | turning an angle by two transforms in a row is turning it by their composition |
| Geometry.TransformRegionMember | ClassLib/BaseClasses.py:92-93 | a point lies in a transformed region exactly when its preimage lies in the region |
| Geometry.TransformRegionCompose | ClassLib/BaseClasses.py:92-93 | transforming a region twice is transforming it once by the composition |
| Geometry.TransformRegionUnion | ClassLib/BaseClasses.py:92-93 | transforming a union of regions is the union of the transformed regions |
| Nodes.Lookup | ClassLib/BaseClasses.py:134-143 | defines a dictionary lookup: an absent name yields an empty region, a `"default"` alias yields the primary region, any other entry its own region |
| Nodes.MakeTransNode | ClassLib/BaseClasses.py:89-95 | defines `make_trans` on a tree: a leaf moves its primary regions, connections and angles; a composite moves only its connections and angles and moves every child by the same transform (lines 183-187) |
| Nodes.AnglesIgnoreDisplacement | ClassLib/BaseClasses.py:110-119 | the angles an element ends with are the same whatever the transform's displacement |
| Nodes.MakeTransCompose | ClassLib/BaseClasses.py:89-95 | two `make_trans` calls in a row act as one call with the composed transform, on a whole tree of nested composites |
| Nodes.MakeTransIdentity | ClassLib/BaseClasses.py:183-187 | the identity transform leaves every element of a tree unchanged |
| Nodes.MakeTransUndo | ClassLib/BaseClasses.py:183-187 | `make_trans` with the inverse transform restores the tree exactly |
| Nodes.MakeTransKeepsShape | ClassLib/BaseClasses.py:97-119 | a transform keeps the number of connections and angles and the kind of node, and keeps a well-formed tree well formed: `"default"` entries still alias the primary regions, names stay distinct |
| Nodes.MakeTransComplexParts | ClassLib/BaseClasses.py:183-187 | moving a composite's own markers and each of its leaves by the same transform is the transform of the whole composite |
| Nodes.SelectRegions | ClassLib/BaseClasses.py:131-143 | defines the pair `place` uses: the primary metal and empty regions without a name, the named dictionary entries with one |
| Nodes.PlaceNode | ClassLib/BaseClasses.py:158-162 | defines `place` on a tree: a leaf turns the destination `d` into `(d + metal) - empty` for the selected pair; a composite places its children in insertion order (lines 224-226) |
| Nodes.PlaceChildren | ClassLib/BaseClasses.py:224-226 | defines the placement of a composite's first `k` children, one after the other, into the same destination |
| Nodes.DefaultNameIsPrimary | ClassLib/BaseClasses.py:37-38 | while the `"default"` entries alias the primary regions, placing under `"default"` selects exactly what placing without a name selects |
| Nodes.PlaceIsEffect | ClassLib/BaseClasses.py:158-162 | every placement, of a leaf or of a composite, replaces the destination `d` by `(d - removed) + added` for one fixed pair of regions |
| Nodes.ThenApplies | ClassLib/BaseClasses.py:224-226 | two placements in a row have the effect of their combined pair of regions |
| Nodes.PlaceIdempotent | ClassLib/BaseClasses.py:224-226 | placing the same tree twice into a region gives what placing once gives |
| Nodes.PlaceNeverMerges | ClassLib/BaseClasses.py:224-226 | with the default flag, no placement of a leaf or composite ever merges the destination |
| Nodes.UnknownNameLeavesDest | ClassLib/BaseClasses.py:134-143 | placing under a name that no element has leaves the destination unchanged, with no error |
| Nodes.EraseOrdering | ClassLib/BaseClasses.py:224-226 | insertion order decides erasure: an empty region placed after a metal region erases it; placed before, it does not |
| Nodes.InitTransNode | ClassLib/BaseClasses.py:69-87 | defines construction on a tree: the displacement, then the transform with its displacement zeroed, then the translation to the origin argument, after which the origin moves by the image of local (0,0); a composite does the same to its own markers and every primitive (lines 189-206) |
| Nodes.InitTransComplexParts | ClassLib/BaseClasses.py:189-206 | constructing a composite moves its own markers and every leaf through the same three steps and then resolves its origin, which is the construction of the whole composite |
| Nodes.ConstructionIsNetTransform | ClassLib/BaseClasses.py:69-87 | the three construction steps act as one transform, and the origin ends where that transform takes local (0,0) |
| Nodes.ConstructedOrigin | ClassLib/BaseClasses.py:72-87 | the resolved origin is the origin argument plus the linear part applied to the displacement |
| Nodes.NetInitImage | ClassLib/BaseClasses.py:69-87 | a point authored at `p` ends at `L(p) + L(disp) + origin` |
| Nodes.DisplacementIsRotated | ClassLib/BaseClasses.py:73-87 | a quarter turn with displacement (1,0) moves the origin by (0,1), so the displacement is rotated |
| Nodes.ConstructionWithoutTrans | ClassLib/BaseClasses.py:85-87 | without a constructor transform, construction is the translation to the origin, and the origin stays |
| Nodes.SumMetal | ClassLib/BaseClasses.py:208-211 | defines the union of the primitives' metal regions, accumulated in insertion order |
| Nodes.SumEmpty | ClassLib/BaseClasses.py:208-211 | defines the union of the primitives' empty regions, accumulated in insertion order |
| Nodes.Snapshot | ClassLib/BaseClasses.py:208-211 | defines the composite's snapshot: its own metal plus every primitive's metal, its own empty plus every primitive's empty, children unchanged |
| Nodes.SumMetalMember | ClassLib/BaseClasses.py:208-211 | a point lies in the summed metal exactly when some primitive's metal contains it |
| Nodes.SumMetalMoves | ClassLib/BaseClasses.py:183-187 | moving every leaf primitive moves the union of their metal regions |
| Nodes.SnapshotGoesStale | ClassLib/BaseClasses.py:208-211 | after a non-trivial translation, a composite's metal snapshot stays put while its primitives' metal moves, so the two disagree |
| Nodes.SnapshotIgnoresOrder | ClassLib/BaseClasses.py:208-211 | the snapshot forgets insertion order: for a primitive whose empty region is followed by another's metal over the same non-empty points, placing the composite's summed regions erases them while placing its primitives keeps them |
| BaseClasses.PyIndex | ClassLib/BaseClasses.py:171 | a Python list index, negative ones counting from the end, lands inside the list |
| BaseClasses.Region.AddRegion | ClassLib/BaseClasses.py:159 | the destination gains the region's points, and the call is logged |
| BaseClasses.Region.SubtractRegion | ClassLib/BaseClasses.py:160 | the destination loses the region's points, and the call is logged |
| BaseClasses.Region.Merge | ClassLib/BaseClasses.py:161-162 | merging keeps the covered points, and the call is logged |
| BaseClasses.Element.ElementBase | ClassLib/BaseClasses.py:19-60 | a new leaf holds the authored shape, moved through the construction steps; its dictionaries start from `"default"` entries that are its primary regions |
| BaseClasses.Element.InitRegions | ClassLib/BaseClasses.py:70 | the hook stores the authored regions and markers and adds its named regions to the dictionaries |
| BaseClasses.Element.InitRegionsTrans | ClassLib/BaseClasses.py:69-87 | a leaf after its hook and the construction steps is the constructed value of the authored leaf |
| BaseClasses.Element.ApplyInitTrans | ClassLib/BaseClasses.py:72-87 | the element's own frame and every primitive's frame go through displacement, linear part and translation to the origin, and the origin becomes the argument plus the image of local (0,0) |
| BaseClasses.Element.ComplexBase | ClassLib/BaseClasses.py:175-178 | a new composite holds its primitives and markers, moved through the construction steps, with its regions set to their one-time sum |
| BaseClasses.Element.InitPrimitives | ClassLib/BaseClasses.py:190 | the hook stores the primitives under their names and sets the composite's own markers |
| BaseClasses.Element.InitPrimitivesTrans | ClassLib/BaseClasses.py:189-211 | after the hook, the construction steps and the snapshot, the composite is the snapshot of the constructed value |
| BaseClasses.Element.TakeSnapshot | ClassLib/BaseClasses.py:208-211 | the composite's regions become their old value plus every primitive's regions, accumulated in insertion order |
| BaseClasses.Element.MakeTrans | ClassLib/BaseClasses.py:89-95 | a leaf moves its regions and markers, a composite only its markers, and every primitive moves as a leaf; `None` changes nothing; the origin stays |
| BaseClasses.Element.LeafMakeTrans | ClassLib/BaseClasses.py:89-95 | a leaf's primary regions, connections and angles move by the transform; the origin, edges, ports and separate named regions stay |
| BaseClasses.Element.ComplexMakeTrans | ClassLib/BaseClasses.py:183-187 | every primitive moves by the transform, and the composite moves only its connections and angles, not its regions |
| BaseClasses.Element.TransformPrimitives | ClassLib/BaseClasses.py:184-185 | each primitive, in turn, moves by the same transform |
| BaseClasses.Element.UpdateConnections | ClassLib/BaseClasses.py:97-108 | the list keeps its length and order, and entry i becomes the transform of the old entry i; `None` changes nothing |
| BaseClasses.Element.UpdateAlpha | ClassLib/BaseClasses.py:110-119 | the list keeps its length and order, and angle i becomes the old angle mirrored and rotated; `None` changes nothing |
| BaseClasses.Element.UpdateOrigin | ClassLib/BaseClasses.py:121-125 | the origin becomes its transform; `None` changes nothing |
| BaseClasses.Element.PlaceLeaf | ClassLib/BaseClasses.py:127-162 | the destination becomes `(dest + metal) - empty` for the selected pair; the calls are add, then subtract, then merge only when asked; the element is unchanged |
| BaseClasses.Element.Place | ClassLib/BaseClasses.py:213-226 | the destination and its call log become those of placing the element's value |
| BaseClasses.Element.ComplexPlace | ClassLib/BaseClasses.py:224-226 | the primitives are placed one after the other in insertion order into the same destination |
| BaseClasses.Element.AddSonnetPort | ClassLib/BaseClasses.py:164-171 | an index inside the list, negative ones counting from the end, appends exactly that connection; any other index fails with an index error and records nothing |

## Left out

- The `layer_i != -1` branch of both `place` methods (`ClassLib/BaseClasses.py:145-157`, `214-223`) is left out. It is a read-modify-write through the host layout API.
- Floating-point trigonometry and rounding are left out: `cos`, `sin`, `atan2` and the conversion from double to integer transforms. Transforms are the eight simple orientations with an integer displacement and magnification 1. Angles are quarter turns.
- The run-time dispatch over the four transform classes (`ClassLib/BaseClasses.py:45-58`) is left out, along with the integer copy `ICplxTrans_init`. The constructor takes one canonical `Trans`.
- The unused `inverse` and `connection_ptrs` attributes, `merged_semantics`, and the `print` in `add_sonnet_port` are left out. None of them affects what is modelled.
- Python's dynamic dispatch is modelled by one class with an `isComplex` flag. The dispatchers `MakeTrans` and `Place` choose the overriding method.
- The subclass hooks `init_regions` and `init_primitives` take what they author as parameters. The base versions that raise `NotImplementedError` are not modelled.
- The `OrderedDict` of primitives is two parallel sequences, names and objects, with distinct names. Replacing an entry under an existing key is not modelled.
- The class-level composite holds leaf primitives only. Nested composites appear only in the value model, and the lemmas of `Nodes` cover them.
- BaseClasses.Element.ComplexBase: requires its primitives to be distinct leaf objects that are not already part of it. The source also accepts nested composites, and accepts one object stored under two names.
- BaseClasses.Element.Place: states only the default `merge=False` that `Complex_Base.place` uses. The merge flag of a leaf is covered by `PlaceLeaf`.
- Regions are sets of grid points, so `merge()` leaves them unchanged. Polygon structure is not modelled.
- `ClassLib/ChipDesign.py` and `ClassLib/ChipTemplates.py` are not part of this model. They are host-application glue and a concrete shape.
