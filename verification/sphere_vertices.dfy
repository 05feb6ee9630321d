/**
  The vertex pass of the UV-sphere generator.

  The sphere is cut into `stacks` horizontal bands and `sectors` vertical
  slices, which gives a grid of (stacks + 1) x (sectors + 1) points: row i runs
  from the north pole (i = 0) to the south pole (i = stacks), column j runs
  round the sphere, and column `sectors` repeats column 0 (the texture seam).
  Every grid point contributes one record of eight floats to the vertex
  buffer: position (x, y, z), normal (nx, ny, nz), texture coordinate (s, t).
*/
module SphereVertices {

  /** The six record fields whose values come from `sinf`/`cosf`. */
  datatype Attribute = PosX | PosY | PosZ | NormX | NormY | NormZ

  /**
    One float of the vertex buffer. Texture coordinates are computed exactly;
    `NaN` is what 0.0f / 0.0f produces; a trigonometric value is kept
    symbolic, named by its field and the grid point it belongs to.
  */
  datatype Float =
    | Exact(value: real)
    | NaN
    | Trig(attr: Attribute, row: nat, col: nat)

  /** Number of floats in one vertex record. */
  const RecordSize: nat := 8

  /** Number of grid points, i.e. of vertex records, the pass writes. */
  function VertexCount(stacks: nat, sectors: nat): nat
  {
    (stacks + 1) * (sectors + 1)
  }

  /**
    The texture coordinate `k / count` of a loop counter k that runs from 0 to
    `count`: exact whenever `count` is positive, and NaN when `count` is 0 (the
    only counter value then is 0, and 0 / 0 is NaN).
  */
  function TexCoord(k: nat, count: nat): (r: Float)
    requires k <= count
    ensures count == 0 <==> r == NaN
    ensures count > 0 <==> r.Exact?
  {
    if count == 0 then NaN else Exact(k as real / count as real)
  }

  /**
    A texture coordinate over a positive count is the fraction k / count: it
    lies in [0, 1], is 0 at the first counter value and 1 at the last.
  */
  lemma TexCoordFraction(k: nat, count: nat)
    requires 0 < count && k <= count
    ensures TexCoord(k, count).Exact?
    ensures TexCoord(k, count).value * count as real == k as real
    ensures 0.0 <= TexCoord(k, count).value <= 1.0
    ensures k == count ==> TexCoord(k, count) == Exact(1.0)
    ensures k == 0 ==> TexCoord(k, count) == Exact(0.0)
  {
  }

  /** The eight floats pushed for grid point (i, j), in push order. */
  function Record(stacks: nat, sectors: nat, i: nat, j: nat): (r: seq<Float>)
    requires i <= stacks && j <= sectors
    ensures |r| == RecordSize
  {
    [ Trig(PosX, i, j), Trig(PosY, i, j), Trig(PosZ, i, j),
      Trig(NormX, i, j), Trig(NormY, i, j), Trig(NormZ, i, j),
      TexCoord(j, sectors), TexCoord(i, stacks) ]
  }

  /** The records of the first `n` grid points of row i. */
  function Row(stacks: nat, sectors: nat, i: nat, n: nat): (r: seq<Float>)
    requires i <= stacks && n <= sectors + 1
    ensures |r| == RecordSize * n
    decreases n
  {
    if n == 0 then [] else Row(stacks, sectors, i, n - 1) + Record(stacks, sectors, i, n - 1)
  }

  /** The records of rows 0 .. m - 1, row after row. */
  function Rows(stacks: nat, sectors: nat, m: nat): (r: seq<Float>)
    requires m <= stacks + 1
    ensures |r| == RecordSize * RowStart(sectors, m)
    decreases m
  {
    if m == 0 then [] else Rows(stacks, sectors, m - 1) + Row(stacks, sectors, m - 1, sectors + 1)
  }

  /** Everything the vertex pass appends to the buffer. */
  function Vertices(stacks: nat, sectors: nat): seq<Float>
  {
    Rows(stacks, sectors, stacks + 1)
  }

  /** The vertex pass appends exactly one eight-float record per grid point. */
  lemma VertexBufferSize(stacks: nat, sectors: nat)
    ensures |Vertices(stacks, sectors)| == RecordSize * VertexCount(stacks, sectors)
  {
    RowStartProduct(sectors, stacks + 1);
  }

  /**
    Position, in records, of the first point of row i: i full rows of
    sectors + 1 points each, counted one row at a time.
  */
  function RowStart(sectors: nat, i: nat): nat
    decreases i
  {
    if i == 0 then 0 else RowStart(sectors, i - 1) + sectors + 1
  }

  /** Position, in records, of grid point (i, j) in row-major order. */
  function PointIndex(sectors: nat, i: nat, j: nat): nat
  {
    RowStart(sectors, i) + j
  }

  /** Counting row by row gives the source's closed form i * (sectors + 1). */
  lemma {:induction false} RowStartProduct(sectors: nat, i: nat)
    ensures RowStart(sectors, i) == i * (sectors + 1)
    decreases i
  {
    if i > 0 {
      RowStartProduct(sectors, i - 1);
    }
  }

  /** Each row starts at least one full row after every earlier one. */
  lemma {:induction false} RowStartGap(sectors: nat, a: nat, b: nat)
    requires a < b
    ensures RowStart(sectors, a) + sectors + 1 <= RowStart(sectors, b)
    decreases b
  {
    if a < b - 1 {
      RowStartGap(sectors, a, b - 1);
    }
  }

  lemma {:induction false} RowAt(stacks: nat, sectors: nat, i: nat, n: nat, j: nat, f: nat)
    requires i <= stacks && n <= sectors + 1 && j < n && f < RecordSize
    ensures RecordSize * j + f < |Row(stacks, sectors, i, n)|
    ensures Row(stacks, sectors, i, n)[RecordSize * j + f] == Record(stacks, sectors, i, j)[f]
    decreases n
  {
    if j < n - 1 {
      RowAt(stacks, sectors, i, n - 1, j, f);
    }
  }

  /** Row i sits in the buffer starting at 8 * RowStart(sectors, i), after the rows above it. */
  lemma {:induction false} RowsAt(stacks: nat, sectors: nat, m: nat, i: nat, q: nat)
    requires m <= stacks + 1 && i < m && q < RecordSize * (sectors + 1)
    ensures RecordSize * RowStart(sectors, i) + q < |Rows(stacks, sectors, m)|
    ensures Rows(stacks, sectors, m)[RecordSize * RowStart(sectors, i) + q] == Row(stacks, sectors, i, sectors + 1)[q]
    decreases m
  {
    var above := Rows(stacks, sectors, m - 1);
    assert Rows(stacks, sectors, m) == above + Row(stacks, sectors, m - 1, sectors + 1);
    if i < m - 1 {
      RowStartGap(sectors, i, m - 1);
      RowsAt(stacks, sectors, m - 1, i, q);
      assert RecordSize * RowStart(sectors, i) + q < |above|;
    } else {
      assert |above| == RecordSize * RowStart(sectors, i);
    }
  }

  /** Float f of the record of grid point (i, j), located in the whole buffer. */
  lemma PointAt(stacks: nat, sectors: nat, i: nat, j: nat, f: nat)
    requires i <= stacks && j <= sectors && f < RecordSize
    ensures RecordSize * PointIndex(sectors, i, j) + f < |Vertices(stacks, sectors)|
    ensures Vertices(stacks, sectors)[RecordSize * PointIndex(sectors, i, j) + f] == Record(stacks, sectors, i, j)[f]
  {
    var q := RecordSize * j + f;
    var row := Row(stacks, sectors, i, sectors + 1);
    var p := RecordSize * RowStart(sectors, i) + q;
    assert q < |row| && row[q] == Record(stacks, sectors, i, j)[f] by {
      RowAt(stacks, sectors, i, sectors + 1, j, f);
    }
    assert p < |Vertices(stacks, sectors)| && Vertices(stacks, sectors)[p] == row[q] by {
      RowsAt(stacks, sectors, stacks + 1, i, q);
    }
    assert RecordSize * PointIndex(sectors, i, j) + f == p;
  }

  /**
    Grid point (i, j) owns the eight floats starting at 8 * (i * (sectors + 1) + j):
    its position, then its normal, then its texture coordinate (j / sectors, i / stacks).
  */
  lemma VertexLayout(stacks: nat, sectors: nat, i: nat, j: nat)
    requires i <= stacks && j <= sectors
    ensures RecordSize * PointIndex(sectors, i, j) + RecordSize <= |Vertices(stacks, sectors)|
    ensures
      var p := RecordSize * PointIndex(sectors, i, j);
      Vertices(stacks, sectors)[p .. p + RecordSize]
      == [ Trig(PosX, i, j), Trig(PosY, i, j), Trig(PosZ, i, j),
           Trig(NormX, i, j), Trig(NormY, i, j), Trig(NormZ, i, j),
           TexCoord(j, sectors), TexCoord(i, stacks) ]
  {
    var p := RecordSize * PointIndex(sectors, i, j);
    var v := Vertices(stacks, sectors);
    PointAt(stacks, sectors, i, j, RecordSize - 1);
    forall f | 0 <= f < RecordSize
      ensures v[p + f] == Record(stacks, sectors, i, j)[f]
    {
      PointAt(stacks, sectors, i, j, f);
    }
    assert v[p .. p + RecordSize] == Record(stacks, sectors, i, j);
  }

  /** The two texture-coordinate floats of grid point (i, j). */
  lemma TexCoordEntries(stacks: nat, sectors: nat, i: nat, j: nat)
    requires i <= stacks && j <= sectors
    ensures RecordSize * PointIndex(sectors, i, j) + RecordSize <= |Vertices(stacks, sectors)|
    ensures Vertices(stacks, sectors)[RecordSize * PointIndex(sectors, i, j) + 6] == TexCoord(j, sectors)
    ensures Vertices(stacks, sectors)[RecordSize * PointIndex(sectors, i, j) + 7] == TexCoord(i, stacks)
  {
    PointAt(stacks, sectors, i, j, 6);
    PointAt(stacks, sectors, i, j, 7);
  }

  /**
    The first texture coordinate of grid point (i, j) is s = j / sectors: it
    lies in [0, 1], and the seam column j == sectors gets s == 1.
  */
  lemma TexCoordS(stacks: nat, sectors: nat, i: nat, j: nat)
    requires 0 < sectors && i <= stacks && j <= sectors
    ensures RecordSize * PointIndex(sectors, i, j) + RecordSize <= |Vertices(stacks, sectors)|
    ensures
      var s := Vertices(stacks, sectors)[RecordSize * PointIndex(sectors, i, j) + 6];
      s.Exact? && 0.0 <= s.value <= 1.0 && s.value * sectors as real == j as real
      && (j == sectors ==> s == Exact(1.0))
  {
    TexCoordEntries(stacks, sectors, i, j);
    TexCoordFraction(j, sectors);
  }

  /**
    The second texture coordinate of grid point (i, j) is t = i / stacks: it
    lies in [0, 1], with t == 0 on the first row and t == 1 on the last.
  */
  lemma TexCoordT(stacks: nat, sectors: nat, i: nat, j: nat)
    requires 0 < stacks && i <= stacks && j <= sectors
    ensures RecordSize * PointIndex(sectors, i, j) + RecordSize <= |Vertices(stacks, sectors)|
    ensures
      var t := Vertices(stacks, sectors)[RecordSize * PointIndex(sectors, i, j) + 7];
      t.Exact? && 0.0 <= t.value <= 1.0 && t.value * stacks as real == i as real
      && (i == 0 ==> t == Exact(0.0)) && (i == stacks ==> t == Exact(1.0))
  {
    TexCoordEntries(stacks, sectors, i, j);
    TexCoordFraction(i, stacks);
  }

  /** A degenerate grid (no stacks or no sectors) yields NaN texture coordinates. */
  lemma DegenerateTexCoords(stacks: nat, sectors: nat, i: nat, j: nat)
    requires i <= stacks && j <= sectors
    ensures RecordSize * PointIndex(sectors, i, j) + RecordSize <= |Vertices(stacks, sectors)|
    ensures sectors == 0 <==> Vertices(stacks, sectors)[RecordSize * PointIndex(sectors, i, j) + 6] == NaN
    ensures stacks == 0 <==> Vertices(stacks, sectors)[RecordSize * PointIndex(sectors, i, j) + 7] == NaN
  {
    TexCoordEntries(stacks, sectors, i, j);
  }
}
