/** The terrain render pass: filling the heightmap, tessellating it into the
    vertex and index lists of module `TerrainMesh`, and the pass whose
    dirty flag decides when the terrain is regenerated and uploaded. */
module Perlin {
  import opened TerrainMesh
  import opened SharedState
  import opened Vectors
  import opened Input

  /** Side length of the terrain grid. */
  const SIZE: nat := 512

  lemma SizeIsValid()
    ensures ValidGridSize(SIZE)
  {
  }

  /** Fills an `n * n` heightmap row by row from `noise`, as
      `generate_heightmap` does with its fractal noise (whose random seed
      makes `noise` a parameter here). */
  method GenerateHeightmap(n: nat, noise: (real, real) -> real) returns (heightmap: seq<real>)
    ensures heightmap == Heightmap(n, noise)
  {
    var a := new real[n * n](_ => 0.0);
    var z := 0;
    while z < n
      invariant z <= n && RowBase(n, z) <= a.Length
      invariant forall k :: 0 <= k < RowBase(n, z) ==> a[k] == HeightAt(n, noise, k)
    {
      var x := 0;
      while x < n
        invariant x <= n && RowBase(n, z) + x <= a.Length
        invariant forall k :: 0 <= k < RowBase(n, z) + x ==> a[k] == HeightAt(n, noise, k)
      {
        var v := noise((x as real) * NOISE_SCALE / (n as real), (z as real) * NOISE_SCALE / (n as real));
        var normalized := (v + 1.0) / 2.0;
        CellBound(n, z, x);
        RowBaseIsProduct(n, z);
        HeightAtCell(n, noise, z, x);
        a[z * n + x] := normalized;
        x := x + 1;
      }
      z := z + 1;
    }
    RowBaseIsProduct(n, n);
    heightmap := a[..];
    assert n > 0 ==> forall k :: 0 <= k < n * n ==> heightmap[k] == Heightmap(n, noise)[k];
  }

  /** Sample `RowBase(n, z) + x` is the normalised noise at column `x`, row `z`. */
  lemma HeightAtCell(n: nat, noise: (real, real) -> real, z: nat, x: nat)
    requires x < n
    ensures HeightAt(n, noise, RowBase(n, z) + x) ==
      ((noise((x as real) * NOISE_SCALE / (n as real), (z as real) * NOISE_SCALE / (n as real))) + 1.0) / 2.0
  {
    SplitAt(n, z, x);
  }

  /** The vertex half of `tessellation`: three numbers per grid point, row by row. */
  method GenerateVertices(h: seq<real>, n: nat) returns (vertices: seq<real>)
    requires n > 0 && |h| == n * n
    ensures vertices == GridVertices(h, n)
  {
    vertices := [];
    var i := 0;
    while i < n
      invariant i <= n && RowBase(n, i) <= |h|
      invariant vertices == Flatten(GridPoints(h, n), RowBase(n, i))
    {
      RowBaseMono(n, i + 1, n);
      RowBaseIsProduct(n, n);
      vertices := PushRowVertices(h, n, i, vertices);
      i := i + 1;
    }
    RowBaseIsProduct(n, n);
  }

  /** The inner loop of the vertex half of `tessellation`: row `i`'s grid
      points, left to right. */
  method PushRowVertices(h: seq<real>, n: nat, i: nat, vertices: seq<real>) returns (vertices': seq<real>)
    requires n > 0 && |h| == n * n && RowBase(n, i + 1) <= |h|
    requires vertices == Flatten(GridPoints(h, n), RowBase(n, i))
    ensures vertices' == Flatten(GridPoints(h, n), RowBase(n, i + 1))
  {
    vertices' := vertices;
    var j := 0;
    while j < n
      invariant j <= n && RowBase(n, i) + j <= |h|
      invariant vertices' == Flatten(GridPoints(h, n), RowBase(n, i) + j)
    {
      RowBaseIsProduct(n, i);
      var k := i * n + j;
      var height := h[k];
      var x, y, z := -(n as real) / 2.0 + (i as real), height * SCALE - SHIFT, -(n as real) / 2.0 + (j as real);
      GridPointAt(h, n, i, j);
      FlattenStep(GridPoints(h, n), k, x, y, z, vertices');
      vertices' := vertices' + [x, y, z];
      j := j + 1;
    }
  }

  /** Flattening one more vertex appends its three coordinates. */
  lemma FlattenStep(vs: seq<Vec3>, k: nat, x: real, y: real, z: real, flat: seq<real>)
    requires k < |vs| && vs[k] == Vec3(x, y, z) && flat == Flatten(vs, k)
    ensures flat + [x, y, z] == Flatten(vs, k + 1)
  {
  }

  /** The index half of `tessellation`: one strip per row, alternating
      direction, with a primitive restart after every row but the last. */
  method GenerateIndices(n: nat) returns (indices: seq<nat>)
    requires 2 <= n
    ensures indices == StripIndices(n)
  {
    indices := [];
    var i := 0;
    while i < n - 1
      invariant i <= n - 1
      invariant i < n - 1 ==> |indices| == RowStart(n, i)
      invariant i == n - 1 ==> |indices| == |StripIndices(n)|
      invariant indices <= StripIndices(n)
    {
      if i % 2 == 0 {
        indices := PushEvenRow(n, i, indices);
      } else {
        indices := PushOddRow(n, i, indices);
      }
      if i < n - 2 {
        StripIndicesRowEnd(n, i);
        PushOne(indices, StripIndices(n), RESTART_INDEX);
        indices := indices + [RESTART_INDEX];
      } else {
        RowFits(n, i);
      }
      i := i + 1;
    }
  }

  /** The inner loop for an even row: columns left to right, lower row first. */
  method PushEvenRow(n: nat, i: nat, indices: seq<nat>) returns (indices': seq<nat>)
    requires 2 <= n && i < n - 1 && i % 2 == 0
    requires |indices| == RowStart(n, i) && indices <= StripIndices(n)
    ensures |indices'| == RowStart(n, i) + 2 * n && indices' <= StripIndices(n)
  {
    indices' := indices;
    var j := 0;
    while j < n
      invariant j <= n
      invariant |indices'| == RowStart(n, i) + 2 * j && indices' <= StripIndices(n)
    {
      StripIndicesEvenRow(n, i, j);
      PushTwo(indices', StripIndices(n), (i + 1) * n + j, i * n + j);
      indices' := indices' + [(i + 1) * n + j, i * n + j];
      j := j + 1;
    }
  }

  /** The inner loop for an odd row: columns right to left, upper row first. */
  method PushOddRow(n: nat, i: nat, indices: seq<nat>) returns (indices': seq<nat>)
    requires 2 <= n && i < n - 1 && i % 2 == 1
    requires |indices| == RowStart(n, i) && indices <= StripIndices(n)
    ensures |indices'| == RowStart(n, i) + 2 * n && indices' <= StripIndices(n)
  {
    indices' := indices;
    var j := n;
    while j > 0
      invariant j <= n
      invariant |indices'| == RowStart(n, i) + 2 * (n - j) && indices' <= StripIndices(n)
    {
      j := j - 1;
      StripIndicesOddRow(n, i, j);
      PushTwo(indices', StripIndices(n), i * n + j, (i + 1) * n + j);
      indices' := indices' + [i * n + j, (i + 1) * n + j];
    }
  }

  /** Appending the next entry of `s` to a prefix of `s` gives a longer prefix. */
  lemma PushOne<T>(prefix: seq<T>, s: seq<T>, a: T)
    requires prefix <= s && |prefix| < |s| && s[|prefix|] == a
    ensures prefix + [a] <= s
  {
  }

  /** Appending the next two entries of `s` to a prefix of `s` gives a longer prefix. */
  lemma PushTwo<T>(prefix: seq<T>, s: seq<T>, a: T, b: T)
    requires prefix <= s && |prefix| + 1 < |s|
    requires s[|prefix|] == a && s[|prefix| + 1] == b
    ensures prefix + [a, b] <= s
  {
  }

  /** `tessellation`: the vertex list and the index list of an `n` by `n`
      heightmap. The source casts every vertex number to `u32`; for grid sizes
      with `n * n <= u32::MAX` (`ValidGridSize`) those casts are exact. */
  method Tessellation(h: seq<real>, n: nat) returns (vertices: seq<real>, indices: seq<nat>)
    requires ValidGridSize(n) && |h| == n * n
    ensures vertices == GridVertices(h, n)
    ensures indices == StripIndices(n)
  {
    vertices := GenerateVertices(h, n);
    indices := GenerateIndices(n);
  }

  /** A `queue.write_buffer` call recorded by the terrain pass. */
  datatype Upload = IndexUpload(indices: seq<nat>) | VertexUpload(vertices: seq<real>)

  /** A write of `data` at offset 0 of a GPU buffer. */
  function WriteAtStart<T>(buffer: seq<T>, data: seq<T>): (r: seq<T>)
    requires |data| <= |buffer|
    ensures |r| == |buffer| && r[.. |data|] == data && r[|data| ..] == buffer[|data| ..]
  {
    data + buffer[|data| ..]
  }

  /** `PerlinPass`: the terrain render pass. `newTerrain` remembers the
      request flag seen at the last update; the two buffers stand for the GPU
      index and vertex buffers, and `uploads` logs every write to them. */
  class PerlinPass {
    const size: nat
    var newTerrain: bool
    var indexBuffer: seq<nat>
    var vertexBuffer: seq<real>
    ghost var uploads: seq<Upload>

    /** The buffers have the sizes they were created with. */
    ghost predicate Valid()
      reads this
    {
      ValidGridSize(size) &&
      |indexBuffer| == IndexBufferLength(size) &&
      |vertexBuffer| == VertexBufferLength(size)
    }

    /** `PerlinPass::new`: zero-filled buffers sized for a `SIZE` grid, and
        a terrain requested from the start. */
    constructor ()
      ensures Valid() && size == SIZE && newTerrain && uploads == []
      ensures indexBuffer == seq(IndexBufferLength(SIZE), _ => 0)
      ensures vertexBuffer == seq(VertexBufferLength(SIZE), _ => 0.0)
    {
      size := SIZE;
      newTerrain := true;
      indexBuffer := seq(IndexBufferLength(SIZE), _ => 0);
      vertexBuffer := seq(VertexBufferLength(SIZE), _ => 0.0);
      uploads := [];
    }

    /** `Renderable::input`: the terrain pass handles no event. */
    method Input(event: WindowEvent, context: ContextState) returns (handled: bool)
      ensures !handled
    {
      handled := false;
    }

    /** `Renderable::update`: copy the context's request flag; when it is
        set, regenerate the terrain from `noise` and upload the index list,
        then the vertex list; finally clear the request. */
    method Update(context: ContextState, noise: (real, real) -> real)
      requires Valid()
      modifies this, context
      ensures Valid()
      ensures newTerrain == old(context.newTerrain) && !context.newTerrain
      ensures context.size == old(context.size) && context.cursorCaptured == old(context.cursorCaptured)
      ensures old(context.newTerrain) ==>
        var heights := Heightmap(size, noise);
        indexBuffer == StripIndices(size) &&
        vertexBuffer == GridVertices(heights, size) &&
        uploads == old(uploads) + [IndexUpload(StripIndices(size)), VertexUpload(GridVertices(heights, size))]
      ensures !old(context.newTerrain) ==>
        indexBuffer == old(indexBuffer) && vertexBuffer == old(vertexBuffer) && uploads == old(uploads)
    {
      newTerrain := context.newTerrain;
      if newTerrain {
        var heightmap := GenerateHeightmap(size, noise);
        HeightmapAt(size, noise, 0, 0);
        var vertices, indices := Tessellation(heightmap, size);
        StripIndicesLength(size);
        GridVerticesLength(heightmap, size);
        indexBuffer := WriteAtStart(indexBuffer, indices);
        uploads := uploads + [IndexUpload(indices)];
        vertexBuffer := WriteAtStart(vertexBuffer, vertices);
        uploads := uploads + [VertexUpload(vertices)];
      }
      context.newTerrain := false;
    }

    /** `Renderable::render`: the number of indices drawn, which is exactly
        the index list's length and the index buffer's. */
    method Render() returns (indexCount: nat)
      requires Valid()
      ensures indexCount == |StripIndices(size)| == |indexBuffer|
    {
      StripIndicesLength(size);
      indexCount := (size - 1) * size * 2 + (size - 2);
    }
  }
}
