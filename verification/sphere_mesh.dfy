/**
  The sphere generator as the source writes it: two passes of nested loops
  that append to a caller-owned vertex buffer and index buffer. The vertex
  pass pushes one record per grid point; the index pass walks two running
  indices s1 (row i) and s2 (row i + 1) along each stack.
*/
module SphereMesh {
  import opened SphereVertices
  import opened SphereIndices

  /** Appending to a buffer in two steps is appending the two parts at once. */
  lemma AppendAssociative<T>(a: seq<T>, b: seq<T>, c: seq<T>)
    ensures (a + b) + c == a + (b + c)
  {
  }

  /** One row of the first loop nest: the records of grid points (i, 0) .. (i, sectors), in column order. */
  method PushRow(sectors: nat, stacks: nat, i: nat, buffer: seq<Float>) returns (buffer': seq<Float>)
    requires i <= stacks
    ensures buffer' == buffer + Row(stacks, sectors, i, sectors + 1)
  {
    buffer' := buffer;
    var j: nat := 0;
    while j <= sectors
      invariant j <= sectors + 1
      invariant buffer' == buffer + Row(stacks, sectors, i, j)
    {
      ghost var done := buffer';
      var position := [Trig(PosX, i, j), Trig(PosY, i, j), Trig(PosZ, i, j)];
      var normal := [Trig(NormX, i, j), Trig(NormY, i, j), Trig(NormZ, i, j)];
      var s := TexCoord(j, sectors);
      var t := TexCoord(i, stacks);
      buffer' := buffer' + position;
      buffer' := buffer' + normal;
      buffer' := buffer' + [s, t];
      AppendAssociative(done, position, normal);
      AppendAssociative(done, position + normal, [s, t]);
      assert position + normal + [s, t] == Record(stacks, sectors, i, j);
      AppendAssociative(buffer, Row(stacks, sectors, i, j), Record(stacks, sectors, i, j));
      j := j + 1;
    }
  }

  /** First loop nest: pushes position, normal and texture coordinate of every grid point, row by row. */
  method PushVertices(sectors: nat, stacks: nat, buffer: seq<Float>) returns (buffer': seq<Float>)
    ensures buffer' == buffer + Vertices(stacks, sectors)
  {
    buffer' := buffer;
    var i: nat := 0;
    while i <= stacks
      invariant i <= stacks + 1
      invariant buffer' == buffer + Rows(stacks, sectors, i)
    {
      buffer' := PushRow(sectors, stacks, i, buffer');
      AppendAssociative(buffer, Rows(stacks, sectors, i), Row(stacks, sectors, i, sectors + 1));
      i := i + 1;
    }
  }

  /**
    One sector of the second loop nest, with s1 the index of point (i, j) and
    s2 the index of point (i + 1, j): pushes the lower triangle (s1, s2, s1 + 1)
    unless i is the first stack, then the upper triangle (s1 + 1, s2, s2 + 1)
    unless i is the last stack.
  */
  method PushSector(sectors: nat, stacks: nat, i: nat, j: nat, s1: nat, s2: nat, ebo: seq<nat>)
    returns (ebo': seq<nat>)
    requires s1 == PointIndex(sectors, i, j) && s2 == s1 + sectors + 1
    ensures ebo' == ebo + Flatten(sectors, SectorTriangles(stacks, i, j))
  {
    SectorIndices(stacks, sectors, i, j);
    ebo' := ebo;
    if i != 0 {
      ebo' := ebo' + [s1, s2, s1 + 1];
    }
    if i + 1 != stacks {
      ebo' := ebo' + [s1 + 1, s2, s2 + 1];
    }
  }

  /** One stack of the second loop nest: s1 walks row i and s2 walks row i + 1, one sector at a time. */
  method PushStack(sectors: nat, stacks: nat, i: nat, ebo: seq<nat>) returns (ebo': seq<nat>)
    requires i < stacks
    ensures ebo' == ebo + Flatten(sectors, StackTriangles(stacks, sectors, i, sectors))
  {
    ebo' := ebo;
    RowStartProduct(sectors, i);
    var s1: nat := i * (sectors + 1);
    var s2: nat := s1 + sectors + 1;
    var j: nat := 0;
    while j < sectors
      invariant j <= sectors
      invariant s1 == PointIndex(sectors, i, j) && s2 == s1 + sectors + 1
      invariant ebo' == ebo + Flatten(sectors, StackTriangles(stacks, sectors, i, j))
    {
      ghost var done := Flatten(sectors, StackTriangles(stacks, sectors, i, j));
      ebo' := PushSector(sectors, stacks, i, j, s1, s2, ebo');
      AppendAssociative(ebo, done, Flatten(sectors, SectorTriangles(stacks, i, j)));
      FlattenConcat(sectors, StackTriangles(stacks, sectors, i, j), SectorTriangles(stacks, i, j));
      j := j + 1;
      s1 := s1 + 1;
      s2 := s2 + 1;
    }
  }

  /** Second loop nest: the stacks' triangles, stack after stack. */
  method PushIndices(sectors: nat, stacks: nat, ebo: seq<nat>) returns (ebo': seq<nat>)
    ensures ebo' == ebo + Indices(stacks, sectors)
  {
    ebo' := ebo;
    var i: nat := 0;
    while i < stacks
      invariant i <= stacks
      invariant ebo' == ebo + Flatten(sectors, Triangles(stacks, sectors, i))
    {
      ghost var done := Flatten(sectors, Triangles(stacks, sectors, i));
      ebo' := PushStack(sectors, stacks, i, ebo');
      TrianglesStep(stacks, sectors, i);
      AppendAssociative(ebo, done, Flatten(sectors, StackTriangles(stacks, sectors, i, sectors)));
      i := i + 1;
    }
  }

  /**
    Appends the sphere's vertex records to `buffer` and its triangle indices
    to `ebo`. Both buffers keep their prior contents as a prefix; the vertex
    buffer grows by 8 * (stacks + 1) * (sectors + 1) floats and the index
    buffer by 6 * sectors * (stacks - 1) indices (none for zero stacks), every
    one of them naming a vertex this call wrote.
  */
  method CreateSphereCoordinates(sectors: nat, stacks: nat, ebo: seq<nat>, buffer: seq<Float>)
    returns (ebo': seq<nat>, buffer': seq<Float>)
    ensures buffer' == buffer + Vertices(stacks, sectors)
    ensures ebo' == ebo + Indices(stacks, sectors)
    ensures |buffer'| == |buffer| + RecordSize * VertexCount(stacks, sectors)
    ensures buffer'[..|buffer|] == buffer && ebo'[..|ebo|] == ebo
    ensures stacks == 0 ==> ebo' == ebo
    ensures stacks >= 1 ==> |ebo'| == |ebo| + 6 * sectors * (stacks - 1)
    ensures forall k | |ebo| <= k < |ebo'| :: ebo'[k] < VertexCount(stacks, sectors)
  {
    buffer' := PushVertices(sectors, stacks, buffer);
    ebo' := PushIndices(sectors, stacks, ebo);
    VertexBufferSize(stacks, sectors);
    IndexCount(stacks, sectors);
    IndexBounds(stacks, sectors);
  }
}
