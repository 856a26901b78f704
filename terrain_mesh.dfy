/** What the terrain pass computes, as values: the normalised heightmap, the
    flat vertex list and the row-by-row triangle strip with primitive-restart
    sentinels, for a square grid of any size `n`. The imperative code that
    builds them lives in module `Perlin`.

    Grid positions are decomposed by `Split`, division with remainder by
    repeated subtraction, and row offsets are counted up by `RowBase`; both
    are shown equal to the products and quotients the source writes
    (lemmas `RowBaseIsProduct`, `SplitIsDivMod`). */
module TerrainMesh {
  import opened Vectors

  /** `u32::MAX`, the primitive-restart index of a `Uint32` triangle strip. */
  const RESTART_INDEX: nat := 0xFFFF_FFFF

  /** Vertical scale and shift applied to a height sample. */
  const SCALE: real := 32.0
  const SHIFT: real := 12.0

  /** The grid spans NOISE_SCALE noise periods in each direction. */
  const NOISE_SCALE: real := 10.0

  /** A grid the index properties are stated for: at least two rows (so that
      `n - 2` does not underflow), and every vertex number representable as a
      `u32` other than the sentinel. */
  predicate ValidGridSize(n: nat) {
    2 <= n && n * n <= RESTART_INDEX
  }

  // ---------------------------------------------------------------------------
  // Grid arithmetic

  lemma MulMono(a: int, b: int, c: nat)
    requires a <= b
    ensures a * c <= b * c
  {
  }

  lemma MulDist(a: int, b: int, c: int)
    ensures (a + b) * c == a * c + b * c
  {
  }

  /** The number of the first vertex of grid row `i`, that is `i * n`
      (lemma RowBaseIsProduct), counted up row by row. */
  function RowBase(n: nat, i: nat): nat {
    if i == 0 then 0 else RowBase(n, i - 1) + n
  }

  lemma {:induction false} RowBaseIsProduct(n: nat, i: nat)
    ensures RowBase(n, i) == i * n
  {
    if i > 0 {
      RowBaseIsProduct(n, i - 1);
      MulDist(i - 1, 1, n);
    }
  }

  lemma {:induction false} RowBaseMono(n: nat, i: nat, k: nat)
    requires i <= k
    ensures RowBase(n, i) <= RowBase(n, k)
    decreases k - i
  {
    if i < k {
      RowBaseMono(n, i + 1, k);
    }
  }

  /** With rows of positive length, row starts are ordered as the rows are. */
  lemma RowBaseOrder(n: nat, i: nat, k: nat)
    requires n > 0
    ensures RowBase(n, i) < RowBase(n, k) <==> i < k
  {
    if i < k {
      RowBaseMono(n, i + 1, k);
    } else {
      RowBaseMono(n, k, i);
    }
  }

  /** Position `k` of a row-major grid with rows of length `n`, as (row, column). */
  function Split(n: nat, k: nat): (nat, nat)
    requires n > 0
  {
    if k < n then (0, k) else
      var (i, j) := Split(n, k - n);
      (i + 1, j)
  }

  lemma {:induction false} SplitSound(n: nat, k: nat)
    requires n > 0
    ensures Split(n, k).1 < n && RowBase(n, Split(n, k).0) + Split(n, k).1 == k
  {
    if k >= n {
      SplitSound(n, k - n);
    }
  }

  /** Row `i`, column `j` is the only position that splits into `(i, j)`. */
  lemma {:induction false} SplitAt(n: nat, i: nat, j: nat)
    requires j < n
    ensures Split(n, RowBase(n, i) + j) == (i, j)
  {
    if i > 0 {
      SplitAt(n, i - 1, j);
    }
  }

  lemma {:induction false} CellDivMod(n: nat, i: nat, j: nat)
    requires j < n
    ensures (i * n + j) / n == i && (i * n + j) % n == j
  {
    var k := i * n + j;
    var q, r := k / n, k % n;
    assert q * n + r == k && 0 <= r < n;
    MulDist(q, -(i as int), n);
    assert (q - i) * n == j - r;
    if q > i {
      MulMono(1, q - i, n);
    } else if q < i {
      MulMono(1, i - q, n);
      MulDist(i, -q, n);
    }
  }

  /** `Split` is the source's `k / n`, `k % n`. */
  lemma SplitIsDivMod(n: nat, k: nat)
    requires n > 0
    ensures Split(n, k) == (k / n, k % n)
  {
    var (i, j) := Split(n, k);
    SplitSound(n, k);
    RowBaseIsProduct(n, i);
    CellDivMod(n, i, j);
  }

  /** Grid point `(i, j)` of an `n` by `n` grid is numbered below `n * n`. */
  lemma {:induction false} CellBound(n: nat, i: nat, j: nat)
    requires i < n && j < n
    ensures i * n + j < n * n
  {
    MulDist(i, 1, n);
    MulMono(i + 1, n, n);
  }

  // ---------------------------------------------------------------------------
  // Heightmap

  /** Maps a noise sample in [-1, 1] to a height in [0, 1]. */
  function NormalizeSample(v: real): (h: real)
    ensures -1.0 <= v <= 1.0 ==> 0.0 <= h <= 1.0
    ensures 2.0 * h - 1.0 == v
  {
    (v + 1.0) / 2.0
  }

  /** Noise-space coordinate of grid column or row `c`. */
  function NoiseCoord(n: nat, c: nat): real
    requires n > 0
  {
    (c as real) * NOISE_SCALE / (n as real)
  }

  /** The height stored at position `k`: the normalised sample at column
      `k % n`, row `k / n`. */
  function HeightAt(n: nat, noise: (real, real) -> real, k: nat): real
    requires n > 0
  {
    var (z, x) := Split(n, k);
    NormalizeSample(noise(NoiseCoord(n, x), NoiseCoord(n, z)))
  }

  /** The heightmap of an `n` by `n` grid sampled from `noise`. */
  function Heightmap(n: nat, noise: (real, real) -> real): seq<real> {
    if n == 0 then [] else seq(n * n, k requires 0 <= k => HeightAt(n, noise, k))
  }

  /** Entry `z * n + x` of the `n * n` heightmap is the normalised sample at
      column `x`, row `z`. */
  lemma HeightmapAt(n: nat, noise: (real, real) -> real, z: nat, x: nat)
    requires z < n && x < n
    ensures |Heightmap(n, noise)| == n * n && z * n + x < n * n
    ensures Heightmap(n, noise)[z * n + x] ==
      NormalizeSample(noise(NoiseCoord(n, x), NoiseCoord(n, z)))
  {
    CellBound(n, z, x);
    RowBaseIsProduct(n, z);
    SplitAt(n, z, x);
  }

  /** Samples in [-1, 1] everywhere give heights in [0, 1] everywhere. */
  lemma HeightmapInUnitRange(n: nat, noise: (real, real) -> real)
    requires forall a, b :: -1.0 <= noise(a, b) <= 1.0
    ensures forall k :: 0 <= k < |Heightmap(n, noise)| ==> 0.0 <= Heightmap(n, noise)[k] <= 1.0
  {
  }

  // ---------------------------------------------------------------------------
  // Vertices

  /** World coordinate of grid column or row `c`, centring the grid on the origin. */
  function Centered(n: nat, c: nat): real {
    -(n as real) / 2.0 + (c as real)
  }

  /** Vertex `k` of the grid: its row and column centred on the origin,
      and its height scaled and shifted. */
  function GridPoint(h: seq<real>, n: nat, k: nat): Vec3
    requires n > 0 && k < |h|
  {
    var (i, j) := Split(n, k);
    Vec3(Centered(n, i), h[k] * SCALE - SHIFT, Centered(n, j))
  }

  /** The grid's vertices, one per height sample, in sample order. */
  function GridPoints(h: seq<real>, n: nat): seq<Vec3>
    requires n > 0
  {
    seq(|h|, k requires 0 <= k < |h| => GridPoint(h, n, k))
  }

  /** The first `m` vertices of `vs` laid out as the vertex buffer holds
      them: `x`, `y`, `z` of each in turn. */
  function Flatten(vs: seq<Vec3>, m: nat): (r: seq<real>)
    requires m <= |vs|
    ensures |r| == 3 * m
  {
    if m == 0 then [] else Flatten(vs, m - 1) + [vs[m - 1].x, vs[m - 1].y, vs[m - 1].z]
  }

  /** Numbers `3k`, `3k + 1`, `3k + 2` of a flattened list are vertex `k`'s coordinates. */
  lemma {:induction false} FlattenAt(vs: seq<Vec3>, m: nat, k: nat)
    requires k < m <= |vs|
    ensures Flatten(vs, m)[3 * k] == vs[k].x
    ensures Flatten(vs, m)[3 * k + 1] == vs[k].y
    ensures Flatten(vs, m)[3 * k + 2] == vs[k].z
  {
    if k < m - 1 {
      FlattenAt(vs, m - 1, k);
    }
  }

  /** The vertex list of the grid. */
  function GridVertices(h: seq<real>, n: nat): seq<real>
    requires n > 0
  {
    Flatten(GridPoints(h, n), |h|)
  }

  /** Vertex `RowBase(n, i) + j` is grid point `(i, j)`. */
  lemma GridPointAt(h: seq<real>, n: nat, i: nat, j: nat)
    requires j < n && RowBase(n, i) + j < |h|
    ensures GridPoints(h, n)[RowBase(n, i) + j] ==
      Vec3(Centered(n, i), h[RowBase(n, i) + j] * SCALE - SHIFT, Centered(n, j))
  {
    var k := RowBase(n, i) + j;
    SplitAt(n, i, j);
    assert GridPoints(h, n)[k] == GridPoint(h, n, k);
  }

  /** The vertex array holds `3 n^2` numbers, the size of the vertex buffer. */
  lemma GridVerticesLength(h: seq<real>, n: nat)
    requires n > 0 && |h| == n * n
    ensures |GridVertices(h, n)| == 3 * n * n == VertexBufferLength(n)
  {
    assert 3 * (n * n) == 3 * n * n == n * n * 3;
  }

  /** Grid point `(i, j)` sits at
      `(i - n/2, h[i n + j] * SCALE - SHIFT, j - n/2)`. */
  lemma GridVertexAt(h: seq<real>, n: nat, i: nat, j: nat)
    requires |h| == n * n && i < n && j < n
    ensures i * n + j < n * n
    ensures GridVertices(h, n)[3 * (i * n + j)] == Centered(n, i)
    ensures GridVertices(h, n)[3 * (i * n + j) + 1] == h[i * n + j] * SCALE - SHIFT
    ensures GridVertices(h, n)[3 * (i * n + j) + 2] == Centered(n, j)
  {
    CellBound(n, i, j);
    RowBaseIsProduct(n, i);
    GridVertexAtRow(h, n, i, j);
  }

  /** `GridVertexAt` with the vertex numbered by `RowBase`. */
  lemma GridVertexAtRow(h: seq<real>, n: nat, i: nat, j: nat)
    requires j < n && RowBase(n, i) + j < |h|
    ensures GridVertices(h, n)[3 * (RowBase(n, i) + j)] == Centered(n, i)
    ensures GridVertices(h, n)[3 * (RowBase(n, i) + j) + 1] == h[RowBase(n, i) + j] * SCALE - SHIFT
    ensures GridVertices(h, n)[3 * (RowBase(n, i) + j) + 2] == Centered(n, j)
  {
    GridPointAt(h, n, i, j);
    FlattenAt(GridPoints(h, n), |h|, RowBase(n, i) + j);
  }

  // ---------------------------------------------------------------------------
  // Indices

  /** Entries per row of the index list: two per column, then the sentinel slot. */
  function Stride(n: nat): nat {
    2 * n + 1
  }

  /** Where row `i` begins in the index list, that is `i (2n + 1)`. */
  function RowStart(n: nat, i: nat): nat {
    RowBase(Stride(n), i)
  }

  /** The column visited at step `t` of row `i`: even rows go left to right,
      odd rows right to left. */
  function Column(n: nat, i: nat, t: nat): (j: nat)
    requires t < n
    ensures j < n
  {
    if i % 2 == 0 then t else n - 1 - t
  }

  /** The two indices emitted for column `j` of row `i`: even rows emit the
      lower row's vertex `(i + 1) n + j` first, odd rows the upper row's
      vertex `i n + j`. */
  function Pair(n: nat, i: nat, j: nat): seq<nat> {
    if i % 2 == 0 then [RowBase(n, i + 1) + j, RowBase(n, i) + j]
    else [RowBase(n, i) + j, RowBase(n, i + 1) + j]
  }

  /** Offset `o` of row `i` in the index list: offset `2n` is the sentinel
      slot, offsets `2t` and `2t + 1` the pair of column step `t`. */
  function Entry(n: nat, i: nat, o: nat): nat
    requires o < Stride(n)
  {
    if o == 2 * n then RESTART_INDEX else Pair(n, i, Column(n, i, o / 2))[o % 2]
  }

  /** The length of the index list: `n - 1` rows of `2n + 1` entries, less
      the sentinel slot after the last row, which stays empty. */
  function StripLength(n: nat): nat
    requires 2 <= n
  {
    RowStart(n, n - 1) - 1
  }

  /** The index list of the whole grid. */
  function StripIndices(n: nat): seq<nat>
    requires 2 <= n
  {
    seq(StripLength(n), p requires 0 <= p => IndexAt(n, p))
  }

  /** Entry `p` of the index list: offset `p % (2n + 1)` of row `p / (2n + 1)`. */
  function IndexAt(n: nat, p: nat): nat {
    SplitSound(Stride(n), p);
    var (i, o) := Split(Stride(n), p);
    Entry(n, i, o)
  }

  /** The index count as the source computes it for the preallocation and the draw call. */
  function IndexCount(n: nat): nat
    requires 2 <= n
  {
    (n - 1) * n * 2 + n - 2
  }

  /** The index buffer's size in `u32` units, as the source writes it. */
  function IndexBufferLength(n: nat): nat
    requires 2 <= n
  {
    n * (n - 1) * 2 + n - 2
  }

  /** The vertex buffer's size in `f32` units. */
  function VertexBufferLength(n: nat): nat {
    n * n * 3
  }

  /** `RowStart` is the product the source's layout implies. */
  lemma RowStartIsProduct(n: nat, i: nat)
    ensures RowStart(n, i) == i * (2 * n + 1)
  {
    RowBaseIsProduct(Stride(n), i);
  }

  /** Entry `o` of row `i` of the index list. */
  lemma StripAt(n: nat, i: nat, o: nat)
    requires 2 <= n && o < Stride(n) && RowStart(n, i) + o < StripLength(n)
    ensures StripIndices(n)[RowStart(n, i) + o] == Entry(n, i, o)
  {
    SplitAt(Stride(n), i, o);
  }

  /** Where rows fall in the index list: every row up to `n - 2` has its
      `2n` pair entries inside it, and every row before `n - 2` its sentinel too. */
  lemma RowFits(n: nat, i: nat)
    requires 2 <= n && i <= n - 2
    ensures RowStart(n, i) + 2 * n <= StripLength(n)
    ensures i < n - 2 ==> RowStart(n, i) + 2 * n < StripLength(n)
  {
    RowBaseMono(Stride(n), i + 1, n - 1);
    if i < n - 2 {
      RowBaseMono(Stride(n), i + 2, n - 1);
    }
  }

  /** Every position of the index list lies in a row up to `n - 2`, and in
      row `n - 2` before its sentinel slot. */
  lemma RowOf(n: nat, p: nat)
    requires 2 <= n && p < StripLength(n)
    ensures Split(Stride(n), p).0 <= n - 2
    ensures Split(Stride(n), p).0 == n - 2 ==> Split(Stride(n), p).1 < 2 * n
  {
    var (i, o) := Split(Stride(n), p);
    SplitSound(Stride(n), p);
    RowBaseOrder(Stride(n), i, n - 1);
  }

  /** A pair entry of a row up to `n - 2` names a vertex below `n * n`. */
  lemma EntryBound(n: nat, i: nat, o: nat)
    requires 2 <= n && i <= n - 2 && o < Stride(n) && o != 2 * n
    ensures Entry(n, i, o) < RowBase(n, n)
  {
    RowBaseMono(n, i + 2, n);
  }

  /** The index list's length: two entries per column of each of the
      `n - 1` row strips, plus `n - 2` sentinels. The source's two formulas
      for it (capacity and draw count, buffer size) agree. */
  lemma StripIndicesLength(n: nat)
    requires 2 <= n
    ensures |StripIndices(n)| == 2 * n * (n - 1) + (n - 2)
    ensures |StripIndices(n)| == IndexCount(n) == IndexBufferLength(n)
  {
    var k := n - 1;
    RowStartIsProduct(n, k);
    MulDist(2 * n, 1, k);
    assert 2 * n * k == k * n * 2 == n * k * 2;
  }

  /** An even row `i` visits the columns left to right, emitting for column
      `j` the lower row's vertex `(i + 1) n + j`, then the upper row's `i n + j`. */
  lemma StripIndicesEvenRow(n: nat, i: nat, j: nat)
    requires 2 <= n && i < n - 1 && j < n && i % 2 == 0
    ensures RowStart(n, i) + 2 * j + 1 < |StripIndices(n)|
    ensures StripIndices(n)[RowStart(n, i) + 2 * j] == (i + 1) * n + j
    ensures StripIndices(n)[RowStart(n, i) + 2 * j + 1] == i * n + j
  {
    EvenRowAt(n, i, j);
    RowBaseIsProduct(n, i);
    RowBaseIsProduct(n, i + 1);
  }

  /** Step `o` of row `i`'s strip, a column entry, lies inside the list. */
  lemma RowEntryAt(n: nat, i: nat, o: nat)
    requires 2 <= n && i < n - 1 && o < 2 * n
    ensures RowStart(n, i) + o < |StripIndices(n)|
    ensures StripIndices(n)[RowStart(n, i) + o] == Entry(n, i, o)
  {
    RowFits(n, i);
    StripAt(n, i, o);
  }

  lemma EvenRowAt(n: nat, i: nat, j: nat)
    requires 2 <= n && i < n - 1 && j < n && i % 2 == 0
    ensures RowStart(n, i) + 2 * j + 1 < |StripIndices(n)|
    ensures StripIndices(n)[RowStart(n, i) + 2 * j] == RowBase(n, i + 1) + j
    ensures StripIndices(n)[RowStart(n, i) + 2 * j + 1] == RowBase(n, i) + j
  {
    EntryEven(n, i, j);
    RowEntryAt(n, i, 2 * j);
    RowEntryAt(n, i, 2 * j + 1);
  }

  /** An odd row `i` visits the columns right to left: column `j` is its
      step `n - 1 - j`, emitting the upper row's vertex `i n + j`, then the
      lower row's `(i + 1) n + j`. */
  lemma StripIndicesOddRow(n: nat, i: nat, j: nat)
    requires 2 <= n && i < n - 1 && j < n && i % 2 == 1
    ensures RowStart(n, i) + 2 * (n - 1 - j) + 1 < |StripIndices(n)|
    ensures StripIndices(n)[RowStart(n, i) + 2 * (n - 1 - j)] == i * n + j
    ensures StripIndices(n)[RowStart(n, i) + 2 * (n - 1 - j) + 1] == (i + 1) * n + j
  {
    OddRowAt(n, i, n - 1 - j);
    RowBaseIsProduct(n, i);
    RowBaseIsProduct(n, i + 1);
  }

  lemma OddRowAt(n: nat, i: nat, t: nat)
    requires 2 <= n && i < n - 1 && t < n && i % 2 == 1
    ensures RowStart(n, i) + 2 * t + 1 < |StripIndices(n)|
    ensures StripIndices(n)[RowStart(n, i) + 2 * t] == RowBase(n, i) + (n - 1 - t)
    ensures StripIndices(n)[RowStart(n, i) + 2 * t + 1] == RowBase(n, i + 1) + (n - 1 - t)
  {
    EntryOdd(n, i, t);
    RowEntryAt(n, i, 2 * t);
    RowEntryAt(n, i, 2 * t + 1);
  }

  /** Every row before row `n - 2` is followed by the sentinel. */
  lemma StripIndicesRowEnd(n: nat, i: nat)
    requires 2 <= n && i < n - 2
    ensures RowStart(n, i) + 2 * n < |StripIndices(n)|
    ensures StripIndices(n)[RowStart(n, i) + 2 * n] == RESTART_INDEX
  {
    RowFits(n, i);
    StripAt(n, i, 2 * n);
  }

  lemma EntryEven(n: nat, i: nat, j: nat)
    requires j < n && i % 2 == 0
    ensures Entry(n, i, 2 * j) == RowBase(n, i + 1) + j
    ensures Entry(n, i, 2 * j + 1) == RowBase(n, i) + j
  {
  }

  lemma EntryOdd(n: nat, i: nat, t: nat)
    requires t < n && i % 2 == 1
    ensures Entry(n, i, 2 * t) == RowBase(n, i) + (n - 1 - t)
    ensures Entry(n, i, 2 * t + 1) == RowBase(n, i + 1) + (n - 1 - t)
  {
  }

  /** Every entry of the index list is a sentinel or names an existing vertex. */
  lemma StripIndicesBound(n: nat)
    requires 2 <= n
    ensures forall p :: 0 <= p < |StripIndices(n)| && StripIndices(n)[p] != RESTART_INDEX ==>
      StripIndices(n)[p] < n * n
  {
    var s := StripIndices(n);
    RowBaseIsProduct(n, n);
    forall p | 0 <= p < |s| && s[p] != RESTART_INDEX
      ensures s[p] < RowBase(n, n)
    {
      var (i, o) := Split(Stride(n), p);
      RowOf(n, p);
      EntryBound(n, i, o);
    }
  }

  /** The sentinels sit exactly at the end of each row before row `n - 2`;
      in particular the list does not end with one. */
  lemma StripIndicesSentinelAt(n: nat)
    requires ValidGridSize(n)
    ensures forall p :: 0 <= p < |StripIndices(n)| ==>
      (StripIndices(n)[p] == RESTART_INDEX <==> exists i: nat :: i < n - 2 && p == RowStart(n, i) + 2 * n)
    ensures StripIndices(n)[|StripIndices(n)| - 1] != RESTART_INDEX
  {
    forall p | 0 <= p < |StripIndices(n)|
      ensures StripIndices(n)[p] == RESTART_INDEX <==> exists i: nat :: i < n - 2 && p == RowStart(n, i) + 2 * n
    {
      if StripIndices(n)[p] == RESTART_INDEX {
        SentinelOnlyAtRowEnd(n, p);
      }
      forall i: nat | i < n - 2 && p == RowStart(n, i) + 2 * n
        ensures StripIndices(n)[p] == RESTART_INDEX
      {
        StripIndicesRowEnd(n, i);
      }
    }
    LastIsNotSentinel(n);
  }

  /** A sentinel in the index list sits at the end of a row before `n - 2`. */
  lemma SentinelOnlyAtRowEnd(n: nat, p: nat)
    requires ValidGridSize(n) && p < |StripIndices(n)| && StripIndices(n)[p] == RESTART_INDEX
    ensures exists i: nat :: i < n - 2 && p == RowStart(n, i) + 2 * n
  {
    var (i, o) := Split(Stride(n), p);
    SplitSound(Stride(n), p);
    RowOf(n, p);
    if o != 2 * n {
      EntryBound(n, i, o);
      RowBaseIsProduct(n, n);
      assert false;
    }
    assert i < n - 2 && p == RowStart(n, i) + 2 * n;
  }

  /** The index list's last entry is a vertex of the last row strip. */
  lemma LastIsNotSentinel(n: nat)
    requires ValidGridSize(n)
    ensures StripIndices(n)[|StripIndices(n)| - 1] != RESTART_INDEX
  {
    RowEntryAt(n, n - 2, 2 * n - 1);
    EntryBound(n, n - 2, 2 * n - 1);
    RowBaseIsProduct(n, n);
  }

  /** Row `i <= n - 2` has no sentinel among its `2n` pair entries. */
  lemma RowHasNoSentinel(n: nat, i: nat)
    requires ValidGridSize(n) && i <= n - 2
    ensures RowStart(n, i) + 2 * n <= |StripIndices(n)|
    ensures RESTART_INDEX !in StripIndices(n)[RowStart(n, i) .. RowStart(n, i) + 2 * n]
  {
    var s, a := StripIndices(n), RowStart(n, i);
    RowFits(n, i);
    RowBaseIsProduct(n, n);
    var row := s[a .. a + 2 * n];
    forall o | 0 <= o < 2 * n
      ensures row[o] != RESTART_INDEX
    {
      assert row[o] == s[a + o];
      StripAt(n, i, o);
      EntryBound(n, i, o);
    }
  }

  /** Counting occurrences of `x` across a run without `x` followed by one `x`. */
  lemma CountStep<T>(s: seq<T>, a: nat, b: nat, x: T, c: nat)
    requires a <= b < |s| && s[b] == x && x !in s[a .. b]
    requires multiset(s[.. a])[x] == c
    ensures multiset(s[.. b + 1])[x] == c + 1
  {
    assert s[.. b + 1] == s[.. a] + s[a .. b] + [x];
    assert multiset(s[.. b + 1]) == multiset(s[.. a]) + multiset(s[a .. b]) + multiset{x};
  }

  /** Any list laid out as the index list is, `n - 1` runs of `2n`
      non-sentinel entries with a sentinel after each run but the last,
      holds a sentinel once per run before row `i`. */
  lemma {:induction false} SentinelsBefore(s: seq<nat>, n: nat, i: nat)
    requires 2 <= n && i <= n - 2
    requires forall k: nat :: k <= n - 2 ==>
      RowStart(n, k) + 2 * n <= |s| && RESTART_INDEX !in s[RowStart(n, k) .. RowStart(n, k) + 2 * n]
    requires forall k: nat :: k < n - 2 ==>
      RowStart(n, k) + 2 * n < |s| && s[RowStart(n, k) + 2 * n] == RESTART_INDEX
    ensures RowStart(n, i) <= |s|
    ensures multiset(s[.. RowStart(n, i)])[RESTART_INDEX] == i
  {
    if i > 0 {
      SentinelsBefore(s, n, i - 1);
      CountStep(s, RowStart(n, i - 1), RowStart(n, i - 1) + 2 * n, RESTART_INDEX, i - 1);
    }
  }

  /** Exactly `n - 2` entries are sentinels: one after each row but the last. */
  lemma StripIndicesSentinelCount(n: nat)
    requires ValidGridSize(n)
    ensures multiset(StripIndices(n))[RESTART_INDEX] == n - 2
  {
    var s := StripIndices(n);
    forall k: nat | k <= n - 2
      ensures RowStart(n, k) + 2 * n <= |s| && RESTART_INDEX !in s[RowStart(n, k) .. RowStart(n, k) + 2 * n]
    {
      RowHasNoSentinel(n, k);
    }
    forall k: nat | k < n - 2
      ensures RowStart(n, k) + 2 * n < |s| && s[RowStart(n, k) + 2 * n] == RESTART_INDEX
    {
      StripIndicesRowEnd(n, k);
    }
    LastRowCount(s, n);
  }

  /** The count over the whole layout: the last run adds no sentinel. */
  lemma LastRowCount(s: seq<nat>, n: nat)
    requires 2 <= n && |s| == RowStart(n, n - 2) + 2 * n
    requires forall k: nat :: k <= n - 2 ==>
      RowStart(n, k) + 2 * n <= |s| && RESTART_INDEX !in s[RowStart(n, k) .. RowStart(n, k) + 2 * n]
    requires forall k: nat :: k < n - 2 ==>
      RowStart(n, k) + 2 * n < |s| && s[RowStart(n, k) + 2 * n] == RESTART_INDEX
    ensures multiset(s)[RESTART_INDEX] == n - 2
  {
    var a := RowStart(n, n - 2);
    SentinelsBefore(s, n, n - 2);
    assert s == s[.. a] + s[a ..];
    assert multiset(s) == multiset(s[.. a]) + multiset(s[a ..]);
  }
}
