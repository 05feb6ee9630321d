/**
  The index pass of the UV-sphere generator.

  Stack i is the band between grid rows i and i + 1. Each of its `sectors`
  quads (i, j)..(i + 1, j + 1) is cut into two triangles: the "lower" one with
  two corners on row i and the "upper" one with two corners on row i + 1. All
  points of row 0 sit on the north pole and all points of row `stacks` on the
  south pole, so the lower triangle of stack 0 and the upper triangle of the
  last stack would be degenerate; the pass leaves them out.
*/
module SphereIndices {
  import opened SphereVertices

  /** A point of the (stacks + 1) x (sectors + 1) grid. */
  datatype GridPoint = GridPoint(row: nat, col: nat)

  /** A triangle; its corners in the order their indices are pushed. */
  datatype Triangle = Triangle(a: GridPoint, b: GridPoint, c: GridPoint)

  /** The triangle of quad (i, j) with two corners on row i. */
  function LowerTriangle(i: nat, j: nat): Triangle
  {
    Triangle(GridPoint(i, j), GridPoint(i + 1, j), GridPoint(i, j + 1))
  }

  /** The triangle of quad (i, j) with two corners on row i + 1. */
  function UpperTriangle(i: nat, j: nat): Triangle
  {
    Triangle(GridPoint(i, j + 1), GridPoint(i + 1, j), GridPoint(i + 1, j + 1))
  }

  /**
    The triangles of sector j of stack i: the lower one unless i is the first
    stack, then the upper one unless i is the last stack.
  */
  function SectorTriangles(stacks: nat, i: nat, j: nat): (r: seq<Triangle>)
    ensures |r| == (if i != 0 then 1 else 0) + (if i + 1 != stacks then 1 else 0)
  {
    (if i != 0 then [LowerTriangle(i, j)] else [])
    + (if i + 1 != stacks then [UpperTriangle(i, j)] else [])
  }

  /** The triangles of sectors 0 .. n - 1 of stack i, sector by sector. */
  function StackTriangles(stacks: nat, sectors: nat, i: nat, n: nat): (r: seq<Triangle>)
    requires i < stacks && n <= sectors
    ensures |r| == (if i != 0 then n else 0) + (if i + 1 != stacks then n else 0)
    decreases n
  {
    if n == 0 then []
    else StackTriangles(stacks, sectors, i, n - 1) + SectorTriangles(stacks, i, n - 1)
  }

  /** The triangles of stacks 0 .. m - 1, stack after stack. */
  function Triangles(stacks: nat, sectors: nat, m: nat): seq<Triangle>
    requires m <= stacks
    decreases m
  {
    if m == 0 then [] else Triangles(stacks, sectors, m - 1) + StackTriangles(stacks, sectors, m - 1, sectors)
  }

  /**
    Stacks 0 .. m - 1 hold 2 * sectors triangles each, except that the first
    stack lacks its lower triangles and the last stack its upper ones.
  */
  lemma {:induction false} TrianglesCount(stacks: nat, sectors: nat, m: nat)
    requires m <= stacks
    ensures m == 0 ==> |Triangles(stacks, sectors, m)| == 0
    ensures 0 < m < stacks ==> |Triangles(stacks, sectors, m)| == sectors * (2 * m - 1)
    ensures 0 < m == stacks ==> |Triangles(stacks, sectors, m)| == sectors * (2 * m - 2)
    decreases m
  {
    if m > 0 {
      TrianglesCount(stacks, sectors, m - 1);
      if m > 1 {
        var previous := sectors * (2 * (m - 1) - 1);
        assert sectors * (2 * m - 1) == previous + 2 * sectors by {
          Distribute(sectors, 2 * m - 3, 2);
        }
        assert sectors * (2 * m - 2) == previous + sectors by {
          Distribute(sectors, 2 * m - 3, 1);
        }
      }
    }
  }

  lemma Distribute(a: nat, b: nat, c: nat)
    ensures a * (b + c) == a * b + a * c
  {
  }

  /** The three vertex indices of a triangle, in push order. */
  function Corners(sectors: nat, t: Triangle): seq<nat>
  {
    [ PointIndex(sectors, t.a.row, t.a.col),
      PointIndex(sectors, t.b.row, t.b.col),
      PointIndex(sectors, t.c.row, t.c.col) ]
  }

  /** The index buffer contents of a sequence of triangles. */
  function Flatten(sectors: nat, ts: seq<Triangle>): (r: seq<nat>)
    ensures |r| == 3 * |ts|
    decreases |ts|
  {
    if |ts| == 0 then [] else Flatten(sectors, ts[..|ts| - 1]) + Corners(sectors, ts[|ts| - 1])
  }

  /** Everything the index pass appends to the index buffer. */
  function Indices(stacks: nat, sectors: nat): seq<nat>
  {
    Flatten(sectors, Triangles(stacks, sectors, stacks))
  }

  /** The index pass appends 6 * sectors * (stacks - 1) indices, and none at all for zero stacks. */
  lemma {:induction false} IndexCount(stacks: nat, sectors: nat)
    ensures stacks == 0 ==> Indices(stacks, sectors) == []
    ensures stacks >= 1 ==> |Indices(stacks, sectors)| == 6 * sectors * (stacks - 1)
  {
    TrianglesCount(stacks, sectors, stacks);
  }

  /** Number of corners of t that lie on grid row `row`. */
  function CornersOnRow(t: Triangle, row: nat): nat
  {
    (if t.a.row == row then 1 else 0)
    + (if t.b.row == row then 1 else 0)
    + (if t.c.row == row then 1 else 0)
  }

  predicate InQuad(p: GridPoint, i: nat, j: nat)
  {
    (p.row == i || p.row == i + 1) && (p.col == j || p.col == j + 1)
  }

  /**
    t is a proper triangle of the grid: its second corner is point (i + 1, j)
    of some stack i < stacks and sector j < sectors, all three corners are
    distinct corners of quad (i, j), both rows i and i + 1 are used, and at
    most one corner lies on either pole row.
  */
  predicate WellShaped(t: Triangle, stacks: nat, sectors: nat)
  {
    && 1 <= t.b.row <= stacks
    && t.b.col < sectors
    && var i, j := t.b.row - 1, t.b.col;
    && InQuad(t.a, i, j) && InQuad(t.c, i, j)
    && t.a != t.b && t.b != t.c && t.a != t.c
    && CornersOnRow(t, i) >= 1 && CornersOnRow(t, i + 1) >= 1
    && CornersOnRow(t, 0) <= 1 && CornersOnRow(t, stacks) <= 1
  }

  lemma {:induction false} StackTrianglesWellShaped(stacks: nat, sectors: nat, i: nat, n: nat)
    requires i < stacks && n <= sectors
    ensures forall t | t in StackTriangles(stacks, sectors, i, n) :: WellShaped(t, stacks, sectors)
    decreases n
  {
    if n > 0 {
      StackTrianglesWellShaped(stacks, sectors, i, n - 1);
    }
  }

  /**
    Every triangle of the index pass is proper: three distinct corners of one
    quad of the grid, from two consecutive rows, never two on a pole row.
  */
  lemma {:induction false} TrianglesWellShaped(stacks: nat, sectors: nat, m: nat)
    requires m <= stacks
    ensures forall t | t in Triangles(stacks, sectors, m) :: WellShaped(t, stacks, sectors)
    decreases m
  {
    if m > 0 {
      TrianglesWellShaped(stacks, sectors, m - 1);
      StackTrianglesWellShaped(stacks, sectors, m - 1, sectors);
    }
  }

  /** The first stack keeps only the triangle with two corners on row 1, the last only the one with two on row stacks - 1. */
  lemma {:induction false} PoleStacks(stacks: nat, sectors: nat, i: nat, n: nat)
    requires i < stacks && n <= sectors
    ensures i == 0 ==> forall t | t in StackTriangles(stacks, sectors, i, n) :: CornersOnRow(t, 1) == 2
    ensures i + 1 == stacks ==> forall t | t in StackTriangles(stacks, sectors, i, n) :: CornersOnRow(t, i) == 2
    decreases n
  {
    if n > 0 {
      PoleStacks(stacks, sectors, i, n - 1);
    }
  }

  /** On grid points, PointIndex is one-to-one: distinct points have distinct indices. */
  lemma PointIndexInjective(sectors: nat, p: GridPoint, q: GridPoint)
    requires p.col <= sectors && q.col <= sectors
    requires PointIndex(sectors, p.row, p.col) == PointIndex(sectors, q.row, q.col)
    ensures p == q
  {
    if p.row < q.row {
      RowStartGap(sectors, p.row, q.row);
    } else if q.row < p.row {
      RowStartGap(sectors, q.row, p.row);
    }
  }

  /** Every grid point's index is below the number of records the vertex pass writes. */
  lemma PointIndexBound(stacks: nat, sectors: nat, p: GridPoint)
    requires p.row <= stacks && p.col <= sectors
    ensures PointIndex(sectors, p.row, p.col) < VertexCount(stacks, sectors)
  {
    RowStartGap(sectors, p.row, stacks + 1);
    RowStartProduct(sectors, stacks + 1);
  }

  lemma {:induction false} FlattenAt(sectors: nat, ts: seq<Triangle>, k: nat)
    requires k < |ts|
    ensures 3 * k + 3 <= |Flatten(sectors, ts)|
    ensures Flatten(sectors, ts)[3 * k .. 3 * k + 3] == Corners(sectors, ts[k])
    decreases |ts|
  {
    var init := ts[..|ts| - 1];
    if k < |ts| - 1 {
      FlattenAt(sectors, init, k);
      assert init[k] == ts[k];
    }
  }

  /** Stack i appends its own indices after those of the stacks before it. */
  lemma TrianglesStep(stacks: nat, sectors: nat, i: nat)
    requires i < stacks
    ensures Flatten(sectors, Triangles(stacks, sectors, i + 1))
         == Flatten(sectors, Triangles(stacks, sectors, i)) + Flatten(sectors, StackTriangles(stacks, sectors, i, sectors))
  {
    FlattenConcat(sectors, Triangles(stacks, sectors, i), StackTriangles(stacks, sectors, i, sectors));
  }

  /**
    The indices sector j of stack i contributes, written with s1 = index of
    point (i, j) and s2 = s1 + sectors + 1 as the source computes them.
  */
  lemma SectorIndices(stacks: nat, sectors: nat, i: nat, j: nat)
    ensures
      var s1 := PointIndex(sectors, i, j);
      var s2 := s1 + sectors + 1;
      Flatten(sectors, SectorTriangles(stacks, i, j))
      == (if i != 0 then [s1, s2, s1 + 1] else []) + (if i + 1 != stacks then [s1 + 1, s2, s2 + 1] else [])
  {
    var lo, up := LowerTriangle(i, j), UpperTriangle(i, j);
    assert Flatten(sectors, [lo]) == Corners(sectors, lo);
    assert Flatten(sectors, [up]) == Corners(sectors, up);
    if i != 0 && i + 1 != stacks {
      assert SectorTriangles(stacks, i, j) == [lo, up];
      assert [lo, up][..1] == [lo];
      assert Flatten(sectors, [lo, up]) == Corners(sectors, lo) + Corners(sectors, up);
    } else if i != 0 {
      assert SectorTriangles(stacks, i, j) == [lo];
    } else if i + 1 != stacks {
      assert SectorTriangles(stacks, i, j) == [up];
    } else {
      assert SectorTriangles(stacks, i, j) == [];
    }
  }

  lemma {:induction false} FlattenConcat(sectors: nat, xs: seq<Triangle>, ys: seq<Triangle>)
    ensures Flatten(sectors, xs + ys) == Flatten(sectors, xs) + Flatten(sectors, ys)
    decreases |ys|
  {
    if |ys| > 0 {
      var init := ys[..|ys| - 1];
      assert (xs + ys)[..|xs + ys| - 1] == xs + init;
      FlattenConcat(sectors, xs, init);
    } else {
      assert xs + ys == xs;
    }
  }

  /**
    Triangle k of the index buffer occupies entries 3k, 3k + 1, 3k + 2; they
    are three pairwise-distinct indices of vertices the vertex pass wrote.
  */
  lemma IndexTriangle(stacks: nat, sectors: nat, k: nat)
    requires 3 * k < |Indices(stacks, sectors)|
    ensures 3 * k + 3 <= |Indices(stacks, sectors)|
    ensures
      var e := Indices(stacks, sectors);
      && e[3 * k] != e[3 * k + 1] && e[3 * k + 1] != e[3 * k + 2] && e[3 * k] != e[3 * k + 2]
      && e[3 * k] < VertexCount(stacks, sectors)
      && e[3 * k + 1] < VertexCount(stacks, sectors)
      && e[3 * k + 2] < VertexCount(stacks, sectors)
  {
    var ts := Triangles(stacks, sectors, stacks);
    var e := Indices(stacks, sectors);
    FlattenAt(sectors, ts, k);
    var t := ts[k];
    TrianglesWellShaped(stacks, sectors, stacks);
    assert WellShaped(t, stacks, sectors);
    assert e[3 * k .. 3 * k + 3] == Corners(sectors, t);
    assert e[3 * k] == PointIndex(sectors, t.a.row, t.a.col);
    assert e[3 * k + 1] == PointIndex(sectors, t.b.row, t.b.col);
    assert e[3 * k + 2] == PointIndex(sectors, t.c.row, t.c.col);
    if e[3 * k] == e[3 * k + 1] { PointIndexInjective(sectors, t.a, t.b); }
    if e[3 * k + 1] == e[3 * k + 2] { PointIndexInjective(sectors, t.b, t.c); }
    if e[3 * k] == e[3 * k + 2] { PointIndexInjective(sectors, t.a, t.c); }
    PointIndexBound(stacks, sectors, t.a);
    PointIndexBound(stacks, sectors, t.b);
    PointIndexBound(stacks, sectors, t.c);
  }

  /** Every entry of the index buffer refers to a vertex written by the same call. */
  lemma IndexBounds(stacks: nat, sectors: nat)
    ensures forall k | 0 <= k < |Indices(stacks, sectors)| :: Indices(stacks, sectors)[k] < VertexCount(stacks, sectors)
  {
    var e := Indices(stacks, sectors);
    forall k | 0 <= k < |e|
      ensures e[k] < VertexCount(stacks, sectors)
    {
      IndexTriangle(stacks, sectors, k / 3);
    }
  }
}
