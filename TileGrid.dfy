/** The tile-pyramid arithmetic of a planar quadtree map node: where the
    four children of a tile sit in the grid of the next level, and the
    fixed local transform that places each child inside its parent. */
module TileGrid {

  /** The quadrant a node occupies inside its parent; `Root` for the tile
      that has no parent. */
  datatype QuadTreePosition = Root | TopLeft | TopRight | BottomLeft | BottomRight

  /** A tile of the pyramid: level of detail, column and row. */
  datatype Coord = Coord(level: nat, x: nat, y: nat)

  /** A three-component vector (the scene graph's position and scale). */
  datatype Vec3 = Vec3(x: real, y: real, z: real)

  /** The order in which a subdivision creates its children. */
  const ChildOrder: seq<QuadTreePosition> := [TopLeft, TopRight, BottomLeft, BottomRight]

  /** Number of tiles along one side of the grid at `level`. */
  function Pow2(level: nat): (r: nat)
    ensures r >= 1
  {
    if level == 0 then 1 else 2 * Pow2(level - 1)
  }

  /** The tile lies inside the grid of its own level. */
  predicate InGrid(c: Coord) {
    c.x < Pow2(c.level) && c.y < Pow2(c.level)
  }

  /** The tile one level up that contains `c`. */
  function Parent(c: Coord): (p: Coord)
    requires c.level > 0
    ensures p.level + 1 == c.level
    ensures 2 * p.x <= c.x <= 2 * p.x + 1 && 2 * p.y <= c.y <= 2 * p.y + 1
  {
    Coord(c.level - 1, c.x / 2, c.y / 2)
  }

  /** The quadrant a tile occupies inside its parent, read off the parity
      of its column and row. */
  function QuadrantOf(c: Coord): (q: QuadTreePosition)
    ensures (q == Root) <==> c.level == 0
  {
    if c.level == 0 then Root
    else if c.y % 2 == 0 then (if c.x % 2 == 0 then TopLeft else TopRight)
    else (if c.x % 2 == 0 then BottomLeft else BottomRight)
  }

  /** The grid coordinate `createChildNodes` gives the child in quadrant
      `q` of the tile `c`: one level deeper, the column doubled plus one
      on the right, the row doubled plus one at the bottom. */
  function ChildCoord(c: Coord, q: QuadTreePosition): (r: Coord)
    requires q != Root
    ensures r.level == c.level + 1
    ensures 2 * c.x <= r.x <= 2 * c.x + 1 && 2 * c.y <= r.y <= 2 * c.y + 1
    ensures InGrid(c) ==> InGrid(r)
  {
    var level, x, y := c.level + 1, c.x * 2, c.y * 2;
    match q
    case TopLeft => Coord(level, x, y)
    case TopRight => Coord(level, x + 1, y)
    case BottomLeft => Coord(level, x, y + 1)
    case BottomRight => Coord(level, x + 1, y + 1)
  }

  /** Round trip: halving a child's column and row gives back its parent,
      and their parity gives back its quadrant. */
  lemma ChildCoordRoundTrip(c: Coord, q: QuadTreePosition)
    requires q != Root
    ensures Parent(ChildCoord(c, q)) == c
    ensures QuadrantOf(ChildCoord(c, q)) == q
  {
  }

  /** The scale every child is given: half the parent along the two map
      axes, unchanged along the vertical axis. */
  const ChildScale: Vec3 := Vec3(0.5, 1.0, 0.5)

  function Abs(r: real): real {
    if r < 0.0 then -r else r
  }

  /** The position (in the parent's local units) each child is given. The
      map's columns run along x and its rows along z: right-hand quadrants
      sit a quarter to +x, bottom quadrants a quarter to +z, and no child
      is raised. */
  function ChildPosition(q: QuadTreePosition): (p: Vec3)
    requires q != Root
    ensures p.y == 0.0 && Abs(p.x) == 0.25 && Abs(p.z) == 0.25
    ensures (p.x > 0.0) <==> (q == TopRight || q == BottomRight)
    ensures (p.z > 0.0) <==> (q == BottomLeft || q == BottomRight)
  {
    match q
    case TopLeft => Vec3(-0.25, 0.0, -0.25)
    case TopRight => Vec3(0.25, 0.0, -0.25)
    case BottomLeft => Vec3(-0.25, 0.0, 0.25)
    case BottomRight => Vec3(0.25, 0.0, 0.25)
  }

  /** A tile of level `c.level + 1` has `c` as its parent exactly when it is
      one of the four children subdivision creates, and it is the child of
      the quadrant its parity names. */
  lemma ChildCoordsComplete(c: Coord, r: Coord)
    ensures (r.level > 0 && Parent(r) == c) <==>
            (exists k :: 0 <= k < |ChildOrder| && r == ChildCoord(c, ChildOrder[k]))
    ensures r.level > 0 ==> ChildCoord(Parent(r), QuadrantOf(r)) == r
  {
    if r.level > 0 {
      var q := QuadrantOf(r);
      assert r.x == 2 * (r.x / 2) + r.x % 2;
      assert r.y == 2 * (r.y / 2) + r.y % 2;
      assert ChildCoord(Parent(r), q) == r;
      ChildCoordRoundTrip(Parent(r), q);
      if Parent(r) == c {
        var k := if q == TopLeft then 0 else if q == TopRight then 1
                 else if q == BottomLeft then 2 else 3;
        assert r == ChildCoord(c, ChildOrder[k]);
      }
    }
  }

  /** Subdividing the whole-surface tile gives the four tiles of level 1,
      in creation order. */
  lemma RootChildren()
    ensures ChildCoord(Coord(0, 0, 0), TopLeft) == Coord(1, 0, 0)
    ensures ChildCoord(Coord(0, 0, 0), TopRight) == Coord(1, 1, 0)
    ensures ChildCoord(Coord(0, 0, 0), BottomLeft) == Coord(1, 0, 1)
    ensures ChildCoord(Coord(0, 0, 0), BottomRight) == Coord(1, 1, 1)
  {
  }

  /** Two children of one tile in different quadrants never share a tile,
      and two children of different tiles never do either. */
  lemma ChildCoordInjective(c1: Coord, q1: QuadTreePosition, c2: Coord, q2: QuadTreePosition)
    requires q1 != Root && q2 != Root
    ensures ChildCoord(c1, q1) == ChildCoord(c2, q2) <==> (c1 == c2 && q1 == q2)
  {
  }

  /** The four children of a tile are four different tiles. */
  lemma ChildrenPairwiseDistinct(c: Coord, i: nat, j: nat)
    requires i < |ChildOrder| && j < |ChildOrder| && i != j
    ensures ChildCoord(c, ChildOrder[i]) != ChildCoord(c, ChildOrder[j])
  {
  }

  /** The transform agrees with the grid arithmetic: mapped through its
      scale and position, the child's unit square (-0.5 .. 0.5 on both map
      axes) covers exactly the half of the parent's unit square that its
      column and row offsets select, so it lies inside the parent. */
  lemma ChildPlacement(c: Coord, q: QuadTreePosition)
    requires q != Root
    ensures var r := ChildCoord(c, q);
            var p := ChildPosition(q);
            var dx := (r.x - 2 * c.x) as real;
            var dz := (r.y - 2 * c.y) as real;
            && p.x - 0.5 * ChildScale.x == dx / 2.0 - 0.5
            && p.x + 0.5 * ChildScale.x == (dx + 1.0) / 2.0 - 0.5
            && p.z - 0.5 * ChildScale.z == dz / 2.0 - 0.5
            && p.z + 0.5 * ChildScale.z == (dz + 1.0) / 2.0 - 0.5
            && -0.5 <= p.x - 0.5 * ChildScale.x && p.x + 0.5 * ChildScale.x <= 0.5
            && -0.5 <= p.z - 0.5 * ChildScale.z && p.z + 0.5 * ChildScale.z <= 0.5
            && Abs(p.x) == 0.25 && Abs(p.z) == 0.25 && p.y == 0.0
  {
  }

  /** No two quadrants share a position, so the transform also identifies
      the quadrant. */
  lemma ChildPositionInjective(q1: QuadTreePosition, q2: QuadTreePosition)
    requires q1 != Root && q2 != Root
    ensures ChildPosition(q1) == ChildPosition(q2) <==> q1 == q2
  {
  }
}
