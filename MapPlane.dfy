/** A planar map tile node: a scene-graph object carrying its grid
    coordinate and quadrant, which subdivides into four children,
    raycasts only while it is a mesh, and initialises in a fixed order. */
module MapPlane {
  import opened TileGrid

  /** A ray of the scene's picking routine. */
  datatype Ray = Ray(origin: Vec3, direction: Vec3)

  /** One hit reported by a raycast. */
  datatype Intersection = Intersection(distance: real, point: Vec3)

  /** The steps of `initialize`, in the order a node passes through them. */
  datatype Phase = Constructed | Initialized | DataLoaded | Ready

  /** A history never shows the node ready unless its data load was the
      step just before. */
  ghost predicate NoReadyBeforeLoad(h: seq<Phase>) {
    forall i :: 0 <= i < |h| && h[i] == Ready ==> 0 < i && h[i - 1] == DataLoaded
  }

  /** The phases one run of `initialize` passes through: all three when
      the data load succeeds, only the base initialisation when it fails. */
  function InitializeRun(loaded: bool): seq<Phase> {
    if loaded then [Initialized, DataLoaded, Ready] else [Initialized]
  }

  /** One run of `initialize`, successful or not, keeps that ordering,
      whatever came before. */
  lemma InitializeRunKeepsOrder(h: seq<Phase>, loaded: bool)
    requires NoReadyBeforeLoad(h)
    ensures NoReadyBeforeLoad(h + InitializeRun(loaded))
  {
  }

  class Node {
    var location: QuadTreePosition
    var level: nat
    var x: nat
    var y: nat
    /** The parent the node was constructed for (the base class's record). */
    var parentNode: Node?
    /** The scene-graph parent, set when the node is added to a parent. */
    var parent: Node?
    var children: seq<Node>
    var position: Vec3
    var scale: Vec3
    var visible: bool
    var isMesh: bool
    var matrixAutoUpdate: bool
    var phase: Phase
    /** Every phase the node has entered, oldest first. */
    ghost var history: seq<Phase>

    /** The node's tile in the grid. */
    function Coordinate(): Coord
      reads this
    {
      Coord(level, x, y)
    }

    /** The lifecycle invariant: `phase` is the last phase entered, and the
        node never became ready before its data had loaded. The base step and
        the data load keep it; the ready step keeps it only straight after a
        data load, which is where `Initialize` takes it. */
    ghost predicate LifecycleValid()
      reads this
    {
      (if history == [] then phase == Constructed else phase == history[|history| - 1])
      && NoReadyBeforeLoad(history)
    }

    /** Arguments left out default to the root tile (level 0, column 0,
        row 0, no parent). The node starts hidden, as a mesh, without
        automatic matrix updates and with the scene graph's default
        transform. */
    constructor (parentNode: Node? := null, location: QuadTreePosition := Root, level: nat := 0, x: nat := 0, y: nat := 0)
      ensures this.parentNode == parentNode && parent == null && this.location == location
      ensures this.level == level && this.x == x && this.y == y
      ensures children == []
      ensures position == Vec3(0.0, 0.0, 0.0) && scale == Vec3(1.0, 1.0, 1.0)
      ensures !visible && isMesh && !matrixAutoUpdate
      ensures phase == Constructed && history == [] && LifecycleValid()
    {
      this.parentNode := parentNode;
      parent := null;
      this.location := location;
      this.level := level;
      this.x := x;
      this.y := y;
      children := [];
      position := Vec3(0.0, 0.0, 0.0);
      scale := Vec3(1.0, 1.0, 1.0);
      phase := Constructed;
      history := [];
      matrixAutoUpdate := false;
      isMesh := true;
      visible := false;
    }

    /** `child` was made by subdividing a node at tile `c` whose quadrant
        `q` it occupies: its coordinate, transform and initial flags. */
    ghost predicate IsChildOf(child: Node, c: Coord, q: QuadTreePosition)
      requires q != Root
      reads child
    {
      && child.parentNode == this && child.parent == this
      && child.location == q
      && child.Coordinate() == ChildCoord(c, q)
      && child.scale == ChildScale
      && child.position == ChildPosition(q)
      && child.children == []
      && !child.visible && child.isMesh && !child.matrixAutoUpdate
      && child.phase == Constructed && child.history == []
    }

    /** Scene-graph insertion of a node that has no scene-graph parent yet:
        appends it to the children and makes this node its parent. */
    method Add(node: Node)
      requires node.parent == null && node != this
      modifies this`children, node`parent
      ensures children == old(children) + [node]
      ensures node.parent == this
    {
      node.parent := this;
      children := children + [node];
    }

    /** One child of `createChildNodes`: constructed with this node as
        parent, given its scale and position, then added to the children. */
    method AttachChild(q: QuadTreePosition, level: nat, x: nat, y: nat, position: Vec3) returns (node: Node)
      requires q != Root
      modifies this`children
      ensures fresh(node)
      ensures children == old(children) + [node]
      ensures node.parentNode == this && node.parent == this && node.location == q && node.Coordinate() == Coord(level, x, y)
      ensures node.scale == ChildScale && node.position == position && node.children == []
      ensures !node.visible && node.isMesh && !node.matrixAutoUpdate
      ensures node.phase == Constructed && node.history == []
    {
      node := new Node(this, q, level, x, y);
      node.scale := Vec3(0.5, 1.0, 0.5);
      node.position := position;
      Add(node);
    }

    /** Appends four new children, top-left, top-right, bottom-left,
        bottom-right, one level deeper than this node. Existing children
        stay where they are, and nothing checks whether there were any. */
    method CreateChildNodes()
      modifies this`children
      ensures |children| == |old(children)| + 4
      ensures children[..|old(children)|] == old(children)
      ensures forall k :: |old(children)| <= k < |children| ==> fresh(children[k])
      ensures IsChildOf(children[|old(children)|], Coordinate(), TopLeft)
      ensures IsChildOf(children[|old(children)| + 1], Coordinate(), TopRight)
      ensures IsChildOf(children[|old(children)| + 2], Coordinate(), BottomLeft)
      ensures IsChildOf(children[|old(children)| + 3], Coordinate(), BottomRight)
    {
      var level := this.level + 1;
      var x := this.x * 2;
      var y := this.y * 2;

      var topLeft := AttachChild(TopLeft, level, x, y, Vec3(-0.25, 0.0, -0.25));
      var topRight := AttachChild(TopRight, level, x + 1, y, Vec3(0.25, 0.0, -0.25));
      var bottomLeft := AttachChild(BottomLeft, level, x, y + 1, Vec3(-0.25, 0.0, 0.25));
      var bottomRight := AttachChild(BottomRight, level, x + 1, y + 1, Vec3(0.25, 0.0, 0.25));

      ghost var c := Coordinate();
      assert IsChildOf(topLeft, c, TopLeft);
      assert IsChildOf(topRight, c, TopRight);
      assert IsChildOf(bottomLeft, c, BottomLeft);
      assert IsChildOf(bottomRight, c, BottomRight);
      assert children[|old(children)|..] == [topLeft, topRight, bottomLeft, bottomRight];
    }

    /** Extends the caller's intersections with what the inherited mesh
        test reports for `ray`, but only while this node is a mesh; the
        visibility flag plays no part. */
    method Raycast(ray: Ray, intersects: seq<Intersection>, meshTest: Ray -> seq<Intersection>)
      returns (result: seq<Intersection>)
      ensures !isMesh ==> result == intersects
      ensures isMesh ==> |result| == |intersects| + |meshTest(ray)|
      ensures isMesh ==> result[..|intersects|] == intersects && result[|intersects|..] == meshTest(ray)
    {
      result := intersects;
      if isMesh {
        result := result + meshTest(ray);
      }
    }

    /** The base class's own initialisation step. */
    method BaseInitialize()
      modifies this`phase, this`history
      ensures phase == Initialized && history == old(history) + [Initialized]
      ensures old(LifecycleValid()) ==> LifecycleValid()
    {
      phase := Initialized;
      history := history + [Initialized];
    }

    /** The tile's data load; `succeeds` is the outcome of the load, which
        happens outside this node. Only a successful load is recorded. */
    method LoadData(succeeds: bool) returns (loaded: bool)
      modifies this`phase, this`history
      ensures loaded == succeeds
      ensures loaded ==> phase == DataLoaded && history == old(history) + [DataLoaded]
      ensures !loaded ==> phase == old(phase) && history == old(history)
      ensures old(LifecycleValid()) ==> LifecycleValid()
    {
      loaded := succeeds;
      if loaded {
        phase := DataLoaded;
        history := history + [DataLoaded];
      }
    }

    /** The node reports itself ready. */
    method NodeReady()
      modifies this`phase, this`history
      ensures phase == Ready && history == old(history) + [Ready]
      ensures old(LifecycleValid()) && old(phase) == DataLoaded ==> LifecycleValid()
    {
      phase := Ready;
      history := history + [Ready];
    }

    /** Base initialisation, then the data load, then readiness. When the
        load fails the run stops after the base step and the node does not
        become ready; either way the ordering invariant still holds. */
    method Initialize(loadSucceeds: bool) returns (ok: bool)
      requires LifecycleValid()
      modifies this`phase, this`history
      ensures ok == loadSucceeds
      ensures history == old(history) + InitializeRun(ok)
      ensures ok ==> phase == Ready
      ensures !ok ==> phase == Initialized
      ensures LifecycleValid()
    {
      BaseInitialize();
      ok := LoadData(loadSucceeds);
      if ok {
        NodeReady();
      }
      InitializeRunKeepsOrder(old(history), ok);
    }
  }

  /** A root built with the default arguments and subdivided once has
      exactly the four level-1 tiles as children, in creation order, each
      at its quadrant's offset. */
  method SubdivideRoot() returns (root: Node)
    ensures fresh(root)
    ensures root.parentNode == null && root.parent == null && root.location == Root && root.Coordinate() == Coord(0, 0, 0)
    ensures |root.children| == 4
    ensures root.children[0].Coordinate() == Coord(1, 0, 0) && root.children[0].position == Vec3(-0.25, 0.0, -0.25)
    ensures root.children[1].Coordinate() == Coord(1, 1, 0) && root.children[1].position == Vec3(0.25, 0.0, -0.25)
    ensures root.children[2].Coordinate() == Coord(1, 0, 1) && root.children[2].position == Vec3(-0.25, 0.0, 0.25)
    ensures root.children[3].Coordinate() == Coord(1, 1, 1) && root.children[3].position == Vec3(0.25, 0.0, 0.25)
    ensures forall k :: 0 <= k < 4 ==> root.children[k].parent == root && root.children[k].scale == Vec3(0.5, 1.0, 0.5)
  {
    root := new Node();
    root.CreateChildNodes();
    RootChildren();
  }

  /** Every child a subdivision creates can run its own initialisation;
      the root's children and the other three children are left as they
      were. */
  method InitializeChildOfRoot(loadSucceeds: bool) returns (root: Node, ok: bool)
    ensures fresh(root) && |root.children| == 4
    ensures root.children[0].Coordinate() == Coord(1, 0, 0)
    ensures ok == loadSucceeds
    ensures ok ==> root.children[0].phase == Ready
    ensures !ok ==> root.children[0].phase == Initialized
    ensures root.children[0].LifecycleValid()
    ensures forall k :: 1 <= k < 4 ==> root.children[k].phase == Constructed && root.children[k].history == []
  {
    root := new Node();
    root.CreateChildNodes();
    RootChildren();
    var child := root.children[0];
    ok := child.Initialize(loadSucceeds);
  }
}
