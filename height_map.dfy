/**
  The height map terrain: an 8-bit grey image becomes a grid of H x W heights in [0, 1], a
  colour per height, one vertex per pixel laid out row by row with x and y spread over
  [-1, 1], and triangle strips joining each row to the next.
*/
module HeightMap {
  import opened Vectors

  /** An 8-bit grey pixel as `cv2.imread` returns it. */
  newtype byte = b: int | 0 <= b < 256

  // ---------------------------------------------------------------- heights and colours

  /** `image / 255.0`. */
  function Height(p: byte): (h: real) {
    (p as real) / 255.0
  }

  /** Heights lie in [0, 1]: black is 0, white is 1, and the pixel is recovered from its height. */
  lemma HeightInUnit(p: byte)
    ensures 0.0 <= Height(p) <= 1.0
    ensures p == 0 ==> Height(p) == 0.0
    ensures p == 255 ==> Height(p) == 1.0
    ensures Height(p) * 255.0 == p as real
  {
  }

  /** Brighter pixels are higher. */
  lemma HeightMonotone(p: byte, q: byte)
    requires p < q
    ensures Height(p) < Height(q)
  {
  }

  function Abs(r: real): real { if r < 0.0 then -r else r }

  /**
    The texture entry of a height: r = h, g = 1 - |2h - 1|, b = 1 - h, stored in the order
    (g, r, b) as the x, y and z of the triple.
  */
  function Colour(h: real): (c: Vec3) {
    Vec3(1.0 - Abs(2.0 * h - 1.0), h, 1.0 - h)
  }

  /**
    For a height in [0, 1] every channel of the stored triple is in [0, 1]; r and b (its
    second and third) add up to 1, and g (its first) is 1 less their difference, so it
    peaks at mid height.
  */
  lemma ColourChannels(h: real)
    requires 0.0 <= h <= 1.0
    ensures var c := Colour(h);
            0.0 <= c.x <= 1.0 && 0.0 <= c.y <= 1.0 && 0.0 <= c.z <= 1.0 &&
            c.y + c.z == 1.0 && c.x == 1.0 - Abs(c.y - c.z) &&
            (h == 0.5 ==> c.x == 1.0)
  {
  }

  /** The stored triple is (0, 0, 1) at the lowest height and (0, 1, 0), only r set, at the highest. */
  lemma ColourEnds()
    ensures Colour(0.0) == Vec3(0.0, 0.0, 1.0)
    ensures Colour(1.0) == Vec3(0.0, 1.0, 0.0)
  {
  }

  // ---------------------------------------------------------------- the grid

  /** `(j / (n - 1)) * 2 - 1`: grid line j of n spread over [-1, 1]. */
  function GridCoord(j: nat, n: nat): (x: real)
    requires 2 <= n
  {
    ((j as real) / ((n - 1) as real)) * 2.0 - 1.0
  }

  /** The first grid line is at -1, the last at 1, and they increase in between. */
  lemma GridCoordBounds(j: nat, n: nat)
    requires 2 <= n && j < n
    ensures -1.0 <= GridCoord(j, n) <= 1.0
    ensures j == 0 ==> GridCoord(j, n) == -1.0
    ensures j == n - 1 ==> GridCoord(j, n) == 1.0
  {
    var d := (n - 1) as real;
    var f := (j as real) / d;
    assert f * d == j as real;
    assert f <= 1.0 by {
      if f > 1.0 {
        ProductPositive(f - 1.0, d, (f - 1.0) * d);
      }
    }
  }

  lemma GridCoordIncreasing(i: nat, j: nat, n: nat)
    requires 2 <= n && i < j
    ensures GridCoord(i, n) < GridCoord(j, n)
  {
    var d := (n - 1) as real;
    assert (j as real) / d - (i as real) / d == ((j - i) as real) / d;
  }

  /** w <= k w for k >= 1. */
  lemma MulAtLeast(k: int, w: nat)
    requires 1 <= k
    ensures w <= k * w
  {
    assert k * w == (k - 1) * w + w;
    assert 0 <= (k - 1) * w;
  }

  /** Row-major numbering: vertex i W + j is pixel (i, j). */
  lemma RowMajor(i: nat, j: nat, w: nat, idx: nat)
    requires j < w && idx == i * w + j
    ensures idx / w == i && idx % w == j
  {
    var q, r := idx / w, idx % w;
    assert (q - i) * w == j - r;
    if q > i {
      MulAtLeast(q - i, w);
      assert false;
    } else if q < i {
      MulAtLeast(i - q, w);
      assert false;
    }
  }

  /** A vertex number below H W is in one of the H rows. */
  lemma RowOfIndex(idx: nat, h: nat, w: nat)
    requires idx < h * w
    ensures idx / w < h
  {
    if idx / w >= h {
      MulAtLeast(idx / w - h + 1, w);
      assert false;
    }
  }

  /** A pixel's number is below H * W. */
  lemma RowMajorBound(i: nat, j: nat, h: nat, w: nat, idx: nat)
    requires i < h && j < w && idx == i * w + j
    ensures idx < h * w
  {
    assert h * w == i * w + (h - i) * w;
    MulAtLeast(h - i, w);
  }

  /** One row `[x, y, z, r, g, b]` of `vertices`. */
  datatype Vertex = Vertex(x: real, y: real, z: real, r: real, g: real, b: real)

  /**
    `[x, y, z, r, g, b]` with `r, g, b = texture[i, j]`: the three stored channels are
    unpacked in their stored order into the vertex's red, green and blue.
  */
  function PixelVertex(x: real, y: real, z: real, c: Vec3): (v: Vertex) {
    Vertex(x, y, z, c.x, c.y, c.z)
  }

  /**
    As written, the texture stores (g, r, b) and the vertex unpacks it as (r, g, b): the
    vertex's red carries the mid-height gradient and its green the height, so the highest
    point is pure green and mid height is the reddest.
  */
  lemma VertexColourAsWritten(x: real, y: real, h: real)
    ensures var v := PixelVertex(x, y, h, Colour(h));
            v.r == 1.0 - Abs(2.0 * h - 1.0) && v.g == h && v.b == 1.0 - h
    ensures var v := PixelVertex(x, y, 1.0, Colour(1.0));
            v.r == 0.0 && v.g == 1.0 && v.b == 0.0
    ensures var v := PixelVertex(x, y, 0.5, Colour(0.5));
            v.r == 1.0 && v.g == 0.5 && v.b == 0.5
  {
  }

  /** The texture entry the gradient is meant to give: (r, g, b) with r = h and b = 1 - h. */
  function IntendedColour(h: real): (c: Vec3) {
    Vec3(h, 1.0 - Abs(2.0 * h - 1.0), 1.0 - h)
  }

  /**
    With the channels stored in the order they are unpacked, the vertex's red is the height
    and its blue 1 less the height: low ground is pure blue, the highest point pure red, and
    red rises strictly with the height.
  */
  lemma IntendedVertexColour(x: real, y: real, h: real, k: real)
    ensures var v := PixelVertex(x, y, h, IntendedColour(h));
            v.r == h && v.g == 1.0 - Abs(2.0 * h - 1.0) && v.b == 1.0 - h
    ensures PixelVertex(x, y, 0.0, IntendedColour(0.0)) == Vertex(x, y, 0.0, 0.0, 0.0, 1.0)
    ensures PixelVertex(x, y, 1.0, IntendedColour(1.0)) == Vertex(x, y, 1.0, 1.0, 0.0, 0.0)
    ensures h < k ==> PixelVertex(x, y, h, IntendedColour(h)).r < PixelVertex(x, y, k, IntendedColour(k)).r
  {
  }

  /** A vertex after `apply_scale(factor)`: only its height changes. */
  function Rescaled(v: Vertex, factor: real): Vertex {
    v.(z := v.z * factor)
  }

  // ---------------------------------------------------------------- strip indices

  /**
    Index entry k of the strips: entries 2c and 2c + 1 are c and c + W, for the pixel
    c = i W + j and the one below it.
  */
  function StripIndex(k: nat, w: nat): (v: nat) {
    if k % 2 == 0 then k / 2 else k / 2 + w
  }

  /** Entry m of the strip that starts at entry 2 base. */
  lemma StripOfRow(base: nat, m: nat, w: nat)
    ensures StripIndex(2 * base + m, w) == (if m % 2 == 0 then base + m / 2 else base + w + m / 2)
  {
  }

  /** The whole index buffer: one strip of 2 W entries for each of the H - 1 row pairs. */
  function StripIndices(h: nat, w: nat): (indices: seq<nat>)
    requires 1 <= h
  {
    seq(2 * w * (h - 1), k requires 0 <= k => StripIndex(k, w))
  }

  /** There are 2 W (H - 1) entries, each naming one of the H W vertices. */
  lemma StripIndicesInRange(h: nat, w: nat)
    requires 1 <= h
    ensures |StripIndices(h, w)| == 2 * w * (h - 1)
    ensures forall k :: 0 <= k < |StripIndices(h, w)| ==> StripIndices(h, w)[k] < h * w
  {
    var m := w * (h - 1);
    assert 2 * w * (h - 1) == 2 * m;
    assert m + w == h * w;
    forall k | 0 <= k < 2 * m
      ensures StripIndex(k, w) < h * w
    {
    }
  }

  /** Entries 2(i W + j) and 2(i W + j) + 1 are pixel (i, j) and pixel (i + 1, j). */
  lemma StripLayout(h: nat, w: nat, i: nat, j: nat)
    requires 1 <= h && i < h - 1 && j < w
    ensures var c := i * w + j;
            2 * c + 1 < |StripIndices(h, w)| &&
            StripIndices(h, w)[2 * c] == c && StripIndices(h, w)[2 * c + 1] == (i + 1) * w + j
  {
    RowMajorBound(i, j, h - 1, w, i * w + j);
  }

  // ---------------------------------------------------------------- the object

  class HeightMap {
    /** `height_map`: H x W heights. */
    var heightMap: array2<real>
    /** `texture`: H x W colours in the order (g, r, b). */
    var texture: array2<Vec3>
    /** `_vertices`: H W rows, row i W + j for pixel (i, j). */
    var vertices: array<Vertex>
    /** `_indices`. */
    var indices: seq<nat>
    /** `_num_vertices`. */
    var numVertices: int

    ghost predicate Valid()
      reads this
    {
      2 <= heightMap.Length0 && 2 <= heightMap.Length1 &&
      texture.Length0 == heightMap.Length0 && texture.Length1 == heightMap.Length1 &&
      vertices.Length == heightMap.Length0 * heightMap.Length1
    }

    /** The vertex for pixel number idx, from the current heights and the texture. */
    static ghost function VertexOf(heights: array2<real>, texture: array2<Vec3>, idx: nat): (v: Vertex)
      requires 2 <= heights.Length0 && 2 <= heights.Length1
      requires texture.Length0 == heights.Length0 && texture.Length1 == heights.Length1
      requires idx < heights.Length0 * heights.Length1
      reads heights, texture
    {
      var w := heights.Length1;
      var i, j := idx / w, idx % w;
      RowOfIndex(idx, heights.Length0, w);
      var c := texture[i, j];
      PixelVertex(GridCoord(j, w), GridCoord(i, heights.Length0), heights[i, j], c)
    }

    /** Every vertex agrees with the heights and the texture of its pixel. */
    ghost predicate Consistent()
      requires Valid()
      reads this, heightMap, texture, vertices
    {
      forall idx :: 0 <= idx < vertices.Length ==> vertices[idx] == VertexOf(heightMap, texture, idx)
    }

    /** `image.astype(np.float32) / 255.0`. */
    static method LoadHeights(image: array2<byte>) returns (heights: array2<real>)
      ensures fresh(heights)
      ensures heights.Length0 == image.Length0 && heights.Length1 == image.Length1
      ensures forall i, j :: 0 <= i < image.Length0 && 0 <= j < image.Length1 ==>
                heights[i, j] == Height(image[i, j])
    {
      heights := new real[image.Length0, image.Length1];
      forall i, j | 0 <= i < image.Length0 && 0 <= j < image.Length1 {
        heights[i, j] := Height(image[i, j]);
      }
    }

    /** The texture loop of `_load_height_map`, pixel by pixel. */
    static method ComputeTexture(heights: array2<real>) returns (texture: array2<Vec3>)
      ensures fresh(texture)
      ensures texture.Length0 == heights.Length0 && texture.Length1 == heights.Length1
      ensures forall i, j :: 0 <= i < heights.Length0 && 0 <= j < heights.Length1 ==>
                texture[i, j] == Colour(heights[i, j])
    {
      texture := new Vec3[heights.Length0, heights.Length1];
      for i := 0 to heights.Length0
        invariant forall a, b :: 0 <= a < i && 0 <= b < heights.Length1 ==>
                    texture[a, b] == Colour(heights[a, b])
      {
        for j := 0 to heights.Length1
          invariant forall a, b :: 0 <= a < i && 0 <= b < heights.Length1 ==>
                      texture[a, b] == Colour(heights[a, b])
          invariant forall b :: 0 <= b < j ==> texture[i, b] == Colour(heights[i, b])
        {
          var height := heights[i, j];
          var r := height;
          var g := 1.0 - Abs(2.0 * height - 1.0);
          var b := 1.0 - height;
          texture[i, j] := Vec3(g, r, b);
        }
      }
    }

    /** The vertex loop of `_build_vertex_data`. */
    static method BuildVertices(heights: array2<real>, texture: array2<Vec3>) returns (vertices: array<Vertex>)
      requires 2 <= heights.Length0 && 2 <= heights.Length1
      requires texture.Length0 == heights.Length0 && texture.Length1 == heights.Length1
      ensures fresh(vertices)
      ensures vertices.Length == heights.Length0 * heights.Length1
      ensures forall idx :: 0 <= idx < vertices.Length ==> vertices[idx] == VertexOf(heights, texture, idx)
    {
      var h, w := heights.Length0, heights.Length1;
      vertices := new Vertex[h * w](_ => Vertex(0.0, 0.0, 0.0, 0.0, 0.0, 0.0));
      for i := 0 to h
        invariant i * w <= h * w
        invariant forall idx :: 0 <= idx < i * w ==> vertices[idx] == VertexOf(heights, texture, idx)
      {
        var base := i * w;
        RowMajorBound(i, 0, h, w, base);
        for j := 0 to w
          invariant base + j <= h * w
          invariant forall idx :: 0 <= idx < base + j ==> vertices[idx] == VertexOf(heights, texture, idx)
        {
          var idx := base + j;
          RowMajor(i, j, w, idx);
          RowMajorBound(i, j, h, w, idx);
          var x := GridCoord(j, w);
          var y := GridCoord(i, h);
          var z := heights[i, j];
          var c := texture[i, j];
          vertices[idx] := PixelVertex(x, y, z, c);
        }
        assert (i + 1) * w == base + w;
      }
    }

    /** The index loop of `_build_vertex_data`: one strip per pair of rows. */
    static method BuildIndices(h: nat, w: nat) returns (indices: seq<nat>)
      requires 1 <= h
      ensures indices == StripIndices(h, w)
    {
      indices := [];
      for i := 0 to h - 1
        invariant |indices| == 2 * (i * w)
        invariant forall k :: 0 <= k < |indices| ==> indices[k] == StripIndex(k, w)
      {
        var base, next := i * w, (i + 1) * w;
        assert next == base + w;
        var row := [];
        for j := 0 to w
          invariant |row| == 2 * j
          invariant forall m :: 0 <= m < |row| ==>
                      row[m] == (if m % 2 == 0 then base + m / 2 else next + m / 2)
        {
          row := row + [base + j, next + j];
        }
        ghost var prev := indices;
        indices := indices + row;
        forall k | 0 <= k < |indices|
          ensures indices[k] == StripIndex(k, w)
        {
          if k >= |prev| {
            StripOfRow(base, k - |prev|, w);
          }
        }
      }
      assert 2 * ((h - 1) * w) == 2 * w * (h - 1);
    }

    /** `HeightMap(path)`, from the image `cv2.imread` loads; one-pixel-wide images divide by 0. */
    constructor (image: array2<byte>)
      requires 2 <= image.Length0 && 2 <= image.Length1
      ensures Valid() && Consistent()
      ensures heightMap.Length0 == image.Length0 && heightMap.Length1 == image.Length1
      ensures forall i, j :: 0 <= i < image.Length0 && 0 <= j < image.Length1 ==>
                heightMap[i, j] == Height(image[i, j]) && texture[i, j] == Colour(heightMap[i, j])
      ensures indices == StripIndices(image.Length0, image.Length1)
      ensures numVertices == image.Length0 * image.Length1
      ensures fresh(heightMap) && fresh(texture) && fresh(vertices)
    {
      var heights := LoadHeights(image);
      var colours := ComputeTexture(heights);
      var rows := BuildVertices(heights, colours);
      var strips := BuildIndices(image.Length0, image.Length1);
      heightMap, texture, vertices, indices := heights, colours, rows, strips;
      numVertices := image.Length0 * image.Length1;
    }

    /** `self.height_map *= scale_factor`. */
    method ScaleHeights(factor: real)
      modifies heightMap
      ensures forall i, j :: 0 <= i < heightMap.Length0 && 0 <= j < heightMap.Length1 ==>
                heightMap[i, j] == old(heightMap[i, j]) * factor
    {
      forall i, j | 0 <= i < heightMap.Length0 && 0 <= j < heightMap.Length1 {
        heightMap[i, j] := heightMap[i, j] * factor;
      }
    }

    /** The height the pixel of vertex idx has now. */
    ghost function HeightOf(idx: nat): real
      requires Valid() && idx < vertices.Length
      reads this, heightMap
    {
      RowOfIndex(idx, heightMap.Length0, heightMap.Length1);
      heightMap[idx / heightMap.Length1, idx % heightMap.Length1]
    }

    /** The vertex loop of `apply_scale`: each vertex takes the height of its pixel as its z. */
    method RewriteHeights()
      requires Valid()
      modifies vertices
      ensures forall idx :: 0 <= idx < vertices.Length ==> vertices[idx] == old(vertices[idx]).(z := HeightOf(idx))
    {
      var h, w := heightMap.Length0, heightMap.Length1;
      for i := 0 to h
        invariant i * w <= h * w
        invariant forall idx :: 0 <= idx < i * w ==> vertices[idx] == old(vertices[idx]).(z := HeightOf(idx))
        invariant forall idx :: i * w <= idx < vertices.Length ==> vertices[idx] == old(vertices[idx])
      {
        var base := i * w;
        RowMajorBound(i, 0, h, w, base);
        for j := 0 to w
          invariant base + j <= h * w
          invariant forall idx :: 0 <= idx < base + j ==> vertices[idx] == old(vertices[idx]).(z := HeightOf(idx))
          invariant forall idx :: base + j <= idx < vertices.Length ==> vertices[idx] == old(vertices[idx])
        {
          var idx := base + j;
          RowMajor(i, j, w, idx);
          RowMajorBound(i, j, h, w, idx);
          vertices[idx] := vertices[idx].(z := heightMap[i, j]);
        }
        assert (i + 1) * w == base + w;
      }
    }

    /** Vertices whose z follows heights scaled by a factor are the scaled old vertices, and they agree with the new heights. */
    twostate lemma ScaledStaysConsistent(factor: real)
      requires old(Valid() && Consistent()) && Valid()
      requires unchanged(this) && unchanged(texture)
      requires forall i, j :: 0 <= i < heightMap.Length0 && 0 <= j < heightMap.Length1 ==>
                 heightMap[i, j] == old(heightMap[i, j]) * factor
      requires forall idx :: 0 <= idx < vertices.Length ==> vertices[idx] == old(vertices[idx]).(z := HeightOf(idx))
      ensures Consistent()
      ensures forall idx :: 0 <= idx < vertices.Length ==> vertices[idx] == Rescaled(old(vertices[idx]), factor)
    {
      var h, w := heightMap.Length0, heightMap.Length1;
      forall idx | 0 <= idx < vertices.Length
        ensures vertices[idx] == VertexOf(heightMap, texture, idx)
        ensures vertices[idx] == Rescaled(old(vertices[idx]), factor)
      {
        RowOfIndex(idx, h, w);
        assert old(vertices[idx]) == old(VertexOf(heightMap, texture, idx));
      }
    }

    /**
      `apply_scale(factor)`: every height is multiplied by the factor and the z of its
      vertex rewritten; positions x, y and the colours stay, so the vertices still agree
      with the heights.
    */
    method ApplyScale(factor: real)
      requires Valid() && Consistent()
      modifies heightMap, vertices
      ensures Valid() && Consistent()
      ensures forall i, j :: 0 <= i < heightMap.Length0 && 0 <= j < heightMap.Length1 ==>
                heightMap[i, j] == old(heightMap[i, j]) * factor
      ensures forall idx :: 0 <= idx < vertices.Length ==> vertices[idx] == Rescaled(old(vertices[idx]), factor)
    {
      var h, w := heightMap.Length0, heightMap.Length1;
      ScaleHeights(factor);
      RewriteHeights();
      ScaledStaysConsistent(factor);
    }
  }
}
