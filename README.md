# Planar quadtree map node

A model of `MapPlaneNode`, the flat tile node of a map rendered as a
quadtree: every node is one tile of a tile pyramid (level, column x, row y),
sits in the scene graph under its parent with a fixed local transform, can
subdivide into four children one level deeper, takes part in raycasting
only while it is flagged as a mesh, and initialises in a fixed order (base
initialisation, data load, ready notification).

Two modules:

- `TileGrid` (TileGrid.dfy): the arithmetic that `createChildNodes` performs,
  pulled out as pure functions — the child coordinate of each quadrant, its
  inverse (`Parent`, `QuadrantOf`), the grid bounds (`Pow2`, `InGrid`) and
  the fixed scale and per-quadrant position — with the lemmas relating them.
- `MapPlane` (MapPlane.dfy): the `Node` class with the source's fields
  (`level`, `x`, `y`, `location`, `parentNode`, `parent`, `children`,
  `position`, `scale`, `visible`, `isMesh`, `matrixAutoUpdate`) and a
  `phase` for the initialisation steps; the constructor, `CreateChildNodes`,
  `Raycast` and `Initialize` as methods. The contracts of `CreateChildNodes`
  and `AttachChild` state the new children in terms of `TileGrid`; that of
  `Initialize` states the new history in terms of `InitializeRun`; `Raycast`
  changes no state and states its result. `parentNode` is the parent the node was
  constructed for; `parent` is its scene-graph parent, which only adding
  it to a parent sets.

Facts about the code that the model keeps:

- raycasting is gated on `isMesh`; `visible` plays no part in it;
- the child scale has three components, (0.5, 1.0, 0.5): half along the two
  map axes, unchanged vertically;
- `createChildNodes` performs no check on existing children and raises no
  error: it appends four more children to whatever is already there;
- the constructor does not check that the quadrant agrees with the parent;
- this file defines no operation that removes children;
- `initialize` reaches `nodeReady` only when the awaited data load
  completes; a failed load ends the run after the base initialisation.

## Model

| member | source | states |
|---|---|---|
| TileGrid.ChildCoord | source/nodes/MapPlaneNode.ts:39-66 | a child is one level deeper than its parent, its column and row lie in the parent's 2x2 block (doubled, plus 0 or 1), and a parent inside the grid of its level has children inside the grid of the next level |
| TileGrid.Parent | source/nodes/MapPlaneNode.ts:39-41 | halving column and row gives a tile one level up whose 2x2 block contains the original tile |
| TileGrid.QuadrantOf | source/nodes/MapPlaneNode.ts:45-66 | the quadrant read off a tile's parity is `Root` exactly at level 0 |
| TileGrid.ChildCoordRoundTrip | source/nodes/MapPlaneNode.ts:39-66 | halving a child's coordinate gives back the parent, and the parity of its column and row gives back the quadrant it was created for |
| TileGrid.ChildCoordsComplete | source/nodes/MapPlaneNode.ts:39-66 | a tile has tile c as parent if and only if it is one of the four children created for c; every tile below level 0 is the child of its parent in the quadrant its parity names |
| TileGrid.ChildCoordInjective | source/nodes/MapPlaneNode.ts:45-66 | two children coincide if and only if they have the same parent and the same quadrant |
| TileGrid.ChildrenPairwiseDistinct | source/nodes/MapPlaneNode.ts:45-66 | the four children created for one tile are pairwise different tiles |
| TileGrid.RootChildren | source/nodes/MapPlaneNode.ts:39-66 | the children of the level-0 tile are (1,0,0), (1,1,0), (1,0,1), (1,1,1) in creation order |
| TileGrid.ChildPosition | source/nodes/MapPlaneNode.ts:46-68 | the positions given to the four children: right-hand quadrants (top-right, bottom-right) are offset to +x and the left-hand ones to -x, bottom quadrants to +z and top ones to -z, each offset a quarter of the parent in size, and none vertically |
| TileGrid.ChildPlacement | source/nodes/MapPlaneNode.ts:46-68 | scaled by (0.5, 1.0, 0.5) and moved to its quadrant's position, a child's unit square covers exactly the half of the parent's unit square selected by its column and row offsets, so it lies inside the parent; every offset is 0.25 in size and the vertical offset is 0 |
| TileGrid.ChildPositionInjective | source/nodes/MapPlaneNode.ts:47-68 | different quadrants get different positions |
| MapPlane.Node.constructor | source/nodes/MapPlaneNode.ts:10-17 | a new node records the given parent, quadrant and coordinate (defaults: no parent, root, level 0, column 0, row 0), has no scene-graph parent and no children yet, is hidden, is a mesh, does not update its matrix automatically, and has not started initialising |
| MapPlane.Node.Add | source/nodes/MapPlaneNode.ts:48 | adding a node that has no scene-graph parent and is not this node appends it to the children and makes this node its scene-graph parent |
| MapPlane.Node.AttachChild | source/nodes/MapPlaneNode.ts:45-50 | one child is a fresh node constructed for this node and added to it (both `parentNode` and `parent` are this node), with the given quadrant and coordinate, scale (0.5, 1.0, 0.5), the given position, the constructor's flags and an empty initialisation history, appended to the children |
| MapPlane.Node.CreateChildNodes | source/nodes/MapPlaneNode.ts:37-72 | exactly four fresh nodes are appended after the existing children, which are kept in place; in order they are the top-left, top-right, bottom-left and bottom-right children, each constructed for and added to this node, with `ChildCoord` of this node's coordinate, scale (0.5, 1.0, 0.5), `ChildPosition` of its quadrant, no children, hidden, a mesh, and not yet initialised, so each can run its own initialisation; only `children` of this node changes |
| MapPlane.Node.Raycast | source/nodes/MapPlaneNode.ts:77-83 | when the node is not a mesh the intersections come back unchanged, whatever the ray and the mesh test; when it is, they come back with the inherited mesh test's hits appended after the existing ones |
| MapPlane.Node.BaseInitialize | source/nodes/MapPlaneNode.ts:30 | the node enters the initialised phase, keeping the lifecycle invariant |
| MapPlane.Node.LoadData | source/nodes/MapPlaneNode.ts:32 | a successful load moves the node to the data-loaded phase; a failed one changes nothing; the result reports which happened; either way the lifecycle invariant is kept |
| MapPlane.Node.NodeReady | source/nodes/MapPlaneNode.ts:34 | the node enters the ready phase; the lifecycle invariant is kept when the step before was the data load |
| MapPlane.Node.Initialize | source/nodes/MapPlaneNode.ts:28-35 | when the load succeeds the node passes through initialised, data loaded and ready in that order and ends ready; when it fails the run stops after the base step and the node is not ready; either way its history still never shows it ready before its data had loaded |
| MapPlane.InitializeRunKeepsOrder | source/nodes/MapPlaneNode.ts:28-35 | appending one run of initialise, successful or failed, to a history in which ready always directly follows a data load keeps that property |
| MapPlane.SubdivideRoot | source/nodes/MapPlaneNode.ts:37-72 | a default-constructed root subdivided once has exactly four children (1,0,0), (1,1,0), (1,0,1), (1,1,1) at positions (-0.25,0,-0.25), (0.25,0,-0.25), (-0.25,0,0.25), (0.25,0,0.25), each with the root as parent and scale (0.5, 1.0, 0.5) |
| MapPlane.InitializeChildOfRoot | source/nodes/MapPlaneNode.ts:28-35 | the top-left child (1,0,0) created by subdividing a root can run its own initialisation, ending ready exactly when its load succeeds; the root still has four children, and the other three are still uninitialised with an empty history |

## Left out

- Matrix updates (`updateMatrix`, `updateMatrixWorld`, source/nodes/MapPlaneNode.ts:49-50 and the three later copies): three.js matrix arithmetic, not shown; the model keeps position and scale only.
- The material given to the base constructor and the shared `geometry`/`baseGeometry` (source/nodes/MapPlaneNode.ts:12, 22, 24): three.js and `MapNodeGeometry` objects whose code is not part of this model.
- `baseScale` (source/nodes/MapPlaneNode.ts:26): a floating-point vector built from `UnitsUtils.EARTH_PERIMETER`, which is not part of this model.
- The `mapView` argument: passed to the base class and to every child, never used by this file.
- The `MapNode` base class and the bodies of `super.initialize`, `loadData` and `nodeReady`: not part of this model; the three are kept as steps that only record the phase they reach. What `nodeReady` does to `visible` or `isMesh` is therefore not modelled.
- MapPlane.Node.Initialize: `super.initialize()` is not awaited, so the source only guarantees that the base step has started before the load begins; the model treats it as complete. The outcome of the load is a parameter, since the load itself is outside this model.
- The asynchronous suspension at `await this.loadData()`: `Initialize` runs its three steps without interruption; work of other nodes interleaved during the wait is not modelled.
- The geometric intersection test inside `super.raycast`: three.js float geometry; `Raycast` takes it as a function parameter from ray to hits.
- Raycast: the caller's intersections array, which the source extends in place, is modelled as a sequence passed in and returned extended; aliasing of that array is not captured.
- Construction through `Object.getPrototypeOf(this).constructor` (source/nodes/MapPlaneNode.ts:43): children are built as the same `Node` class.
- Removal of children through the base classes (three.js `Object3D.remove`/`clear`, anything in `MapNode`): not modelled; the model's `children` only grows.
- Scene-graph bookkeeping in three.js `add` beyond appending and setting the parent (removing the node from a previous parent, events): `Add` requires a node other than this one whose scene-graph `parent` is still null, which every fresh child is.
- MapPlane.Node.constructor: what it records (`parentNode`, `location`, `level`, `x`, `y`), that it leaves the scene-graph `parent` null, and that construction does not start initialisation (`phase` is `Constructed`) are decided by the `MapNode` base constructor, which is not part of this model; the model assumes it stores its arguments and does nothing else.
- MapPlane.Node.constructor: level, column and row are `nat`; the source takes any JavaScript number and does not check them. Those numbers are IEEE-754 doubles, so `x * 2 + 1` and `y * 2 + 1` (source/nodes/MapPlaneNode.ts:40, 52, 66) are exact only while the result stays below 2^53; the unbounded `nat` of the model has no such limit.
- MapPlane.Node.constructor: the initial position (0, 0, 0) and scale (1, 1, 1) are the scene graph's defaults, set by the three.js `Object3D` constructor, not by the file modelled here.
