/**
  The mesh viewer: a triangle mesh is turned into an index buffer of its triangles, one
  position, one normal and one colour per vertex, interleaved nine floats to a vertex. The
  colour of a vertex codes its valence through a matplotlib colormap; the normal of a vertex
  is the normalised sum of the unit normals of the faces around it.

  What openmesh supplies (the faces and their vertex lists, the points, the valence of a
  vertex) is a `Mesh` value and a `valence` function; a colormap is a function from its name
  and a value in [0, 1] to a colour.
*/
module MeshViewer {
  import opened Vectors
  import opened Options

  /** The points of a mesh and, per face, the indices of its vertices in order. */
  datatype Mesh = Mesh(points: seq<Vec3>, faces: seq<seq<nat>>)

  /** Every face names vertices of the mesh. */
  predicate FacesInRange(m: Mesh) {
    forall f, v :: 0 <= f < |m.faces| && 0 <= v < |m.faces[f]| ==> m.faces[f][v] < |m.points|
  }

  /** What `compute_normals` needs: every face has the three vertices its edges are taken from. */
  predicate WellFormed(m: Mesh) {
    FacesInRange(m) && forall f :: 0 <= f < |m.faces| ==> 3 <= |m.faces[f]|
  }

  // ---------------------------------------------------------------- the index buffer

  /** The vertex indices of the faces with exactly three vertices, in face order. */
  function TriangleIndices(faces: seq<seq<nat>>): (r: seq<nat>)
    decreases |faces|
  {
    if |faces| == 0 then []
    else
      var last := faces[|faces| - 1];
      TriangleIndices(faces[..|faces| - 1]) + (if |last| == 3 then last else [])
  }

  /** The number of faces with exactly three vertices. */
  function TriangleCount(faces: seq<seq<nat>>): (n: nat)
    ensures n <= |faces|
    decreases |faces|
  {
    if |faces| == 0 then 0
    else TriangleCount(faces[..|faces| - 1]) + (if |faces[|faces| - 1]| == 3 then 1 else 0)
  }

  /** Three indices per triangle, and every index names a vertex the faces name. */
  lemma {:induction false} TriangleIndicesShape(faces: seq<seq<nat>>, n: nat)
    requires forall f, v :: 0 <= f < |faces| && 0 <= v < |faces[f]| ==> faces[f][v] < n
    ensures |TriangleIndices(faces)| == 3 * TriangleCount(faces)
    ensures forall k :: 0 <= k < |TriangleIndices(faces)| ==> TriangleIndices(faces)[k] < n
    decreases |faces|
  {
    if |faces| > 0 {
      var init := faces[..|faces| - 1];
      assert forall f, v :: 0 <= f < |init| && 0 <= v < |init[f]| ==> init[f][v] < n by {
        forall f, v | 0 <= f < |init| && 0 <= v < |init[f]| ensures init[f][v] < n {
          assert init[f] == faces[f];
        }
      }
      TriangleIndicesShape(init, n);
      var last := faces[|faces| - 1];
      assert forall v :: 0 <= v < |last| ==> last[v] < n;
    }
  }

  /** When every face is a triangle, face k's vertices are entries 3k, 3k + 1 and 3k + 2. */
  lemma {:induction false} AllTrianglesKept(faces: seq<seq<nat>>)
    requires forall f :: 0 <= f < |faces| ==> |faces[f]| == 3
    ensures |TriangleIndices(faces)| == 3 * |faces|
    ensures forall k, c :: 0 <= k < |faces| && 0 <= c < 3 ==> TriangleIndices(faces)[3 * k + c] == faces[k][c]
    decreases |faces|
  {
    if |faces| > 0 {
      var init := faces[..|faces| - 1];
      AllTrianglesKept(init);
      forall k, c | 0 <= k < |faces| && 0 <= c < 3
        ensures TriangleIndices(faces)[3 * k + c] == faces[k][c]
      {
        if k < |init| {
          assert init[k] == faces[k];
        }
      }
    }
  }

  /** The face loop of `__init__`: the vertices of each face with three of them are appended. */
  method ExtractIndices(faces: seq<seq<nat>>) returns (indices: seq<nat>)
    ensures indices == TriangleIndices(faces)
  {
    indices := [];
    for f := 0 to |faces|
      invariant indices == TriangleIndices(faces[..f])
    {
      var vs := faces[f];
      assert faces[..f + 1][..f] == faces[..f];
      if |vs| == 3 {
        indices := indices + vs;
      }
    }
    assert faces[..|faces|] == faces;
  }

  // ---------------------------------------------------------------- valences and colours

  /** `1e-6`, which keeps the denominator of the normalisation positive. */
  const Epsilon: real := 0.000001

  function SeqMin(s: seq<int>): (lo: int)
    requires |s| > 0
    ensures forall k :: 0 <= k < |s| ==> lo <= s[k]
    ensures exists k :: 0 <= k < |s| && lo == s[k]
    decreases |s|
  {
    if |s| == 1 then s[0]
    else
      var rest := SeqMin(s[1..]);
      assert forall k :: 1 <= k < |s| ==> s[1..][k - 1] == s[k];
      if s[0] <= rest then s[0] else rest
  }

  function SeqMax(s: seq<int>): (hi: int)
    requires |s| > 0
    ensures forall k :: 0 <= k < |s| ==> s[k] <= hi
    ensures exists k :: 0 <= k < |s| && hi == s[k]
    decreases |s|
  {
    if |s| == 1 then s[0]
    else
      var rest := SeqMax(s[1..]);
      assert forall k :: 1 <= k < |s| ==> s[1..][k - 1] == s[k];
      if s[0] >= rest then s[0] else rest
  }

  /** `(v - min) / (max - min + 1e-6)`. */
  function Normalized(v: int, lo: int, hi: int): real
    requires lo <= hi
  {
    ((v - lo) as real) / ((hi - lo) as real + Epsilon)
  }

  /**
    A value between the minimum and the maximum is normalised into [0, 1): the minimum to 0,
    and the order of values is kept.
  */
  lemma NormalizedBounds(v: int, lo: int, hi: int)
    requires lo <= v <= hi
    ensures 0.0 <= Normalized(v, lo, hi) < 1.0
    ensures v == lo ==> Normalized(v, lo, hi) == 0.0
  {
    var d := (hi - lo) as real + Epsilon;
    var q := ((v - lo) as real) / d;
    assert q * d == (v - lo) as real;
    if q >= 1.0 {
      ProductNonNegative(q - 1.0, d, (q - 1.0) * d);
      assert false;
    }
  }

  lemma NormalizedMonotone(u: int, v: int, lo: int, hi: int)
    requires lo <= hi && u <= v
    ensures Normalized(u, lo, hi) <= Normalized(v, lo, hi)
  {
    var d := (hi - lo) as real + Epsilon;
    assert Normalized(v, lo, hi) - Normalized(u, lo, hi) == ((v - u) as real) / d;
  }

  /** The colormap names, in the order `set_colormap` indexes them. */
  const Colormaps: seq<string> := ["viridis", "plasma", "inferno", "prism", "cividis", "magma",
    "twilight", "twilight_shifted", "turbo", "nipy_spectral", "gist_ncar", "Pastel1"]

  /** `_colormap_index` as first set. */
  const DefaultColormap: int := 3

  /** A Python list index: negative indices count from the end; None for an IndexError. */
  function ColormapName(index: int): (r: Option<string>)
    ensures r.Some? <==> -|Colormaps| <= index < |Colormaps|
    ensures 0 <= index < |Colormaps| ==> r == Some(Colormaps[index])
    ensures -|Colormaps| <= index < 0 ==> r == Some(Colormaps[index + |Colormaps|])
  {
    if 0 <= index < |Colormaps| then Some(Colormaps[index])
    else if -|Colormaps| <= index < 0 then Some(Colormaps[index + |Colormaps|])
    else None
  }

  /** The twelve names are pairwise different. */
  lemma ColormapsDistinct(a: nat, b: nat)
    requires a < b < |Colormaps|
    ensures Colormaps[a] != Colormaps[b]
  {
  }

  /**
    Two indices in range select the same colormap exactly when they are congruent modulo
    the number of names: a negative index and its positive counterpart agree, and no two
    positions share a name.
  */
  lemma ColormapNameSameIff(i: int, j: int)
    requires -|Colormaps| <= i < |Colormaps| && -|Colormaps| <= j < |Colormaps|
    ensures ColormapName(i) == ColormapName(j) <==> i % |Colormaps| == j % |Colormaps|
  {
    var n := |Colormaps|;
    var a := if i < 0 then i + n else i;
    var b := if j < 0 then j + n else j;
    assert ColormapName(i) == Some(Colormaps[a]) && a == i % n;
    assert ColormapName(j) == Some(Colormaps[b]) && b == j % n;
    if a < b {
      ColormapsDistinct(a, b);
    } else if b < a {
      ColormapsDistinct(b, a);
    }
  }

  /**
    `color_coding()`: each valence normalised and passed through the colormap, keeping RGB.
    None for a mesh without vertices, where `np.min` raises.
  */
  function ColorCoding(valences: seq<int>, name: string, cmap: (string, real) -> Vec3): (r: Option<seq<Vec3>>)
  {
    if |valences| == 0 then None
    else
      var lo, hi := SeqMin(valences), SeqMax(valences);
      Some(seq(|valences|, k requires 0 <= k < |valences| => cmap(name, Normalized(valences[k], lo, hi))))
  }

  /** The colormap is given the value that puts the valence between the extremes; the lowest valence gets its colour at 0. */
  lemma ColorCodingValues(valences: seq<int>, name: string, cmap: (string, real) -> Vec3, k: nat)
    requires k < |valences|
    ensures var r := ColorCoding(valences, name, cmap);
            r.Some? && |r.value| == |valences| &&
            exists x :: 0.0 <= x < 1.0 && r.value[k] == cmap(name, x) &&
                        (valences[k] == SeqMin(valences) ==> x == 0.0) &&
                        x == Normalized(valences[k], SeqMin(valences), SeqMax(valences))
  {
    var lo, hi := SeqMin(valences), SeqMax(valences);
    NormalizedBounds(valences[k], lo, hi);
    var x := Normalized(valences[k], lo, hi);
    assert ColorCoding(valences, name, cmap).value[k] == cmap(name, x);
  }

  lemma ColorCodingEmpty(name: string, cmap: (string, real) -> Vec3)
    ensures ColorCoding([], name, cmap).None?
  {
  }

  // ---------------------------------------------------------------- normals

  /** The unit normal of a face, from its first three vertices: unit((p1 - p0) x (p2 - p0)). */
  function FaceNormal(points: seq<Vec3>, face: seq<nat>, sqrt: real -> real): Vec3
    requires 3 <= |face| && face[0] < |points| && face[1] < |points| && face[2] < |points|
  {
    var p0, p1, p2 := points[face[0]], points[face[1]], points[face[2]];
    Unit(Cross(Sub(p1, p0), Sub(p2, p0)), sqrt)
  }

  /** Each face's unit normal added once for each time the face names vertex v. */
  function Accumulated(m: Mesh, faces: nat, v: nat, sqrt: real -> real): Vec3
    requires WellFormed(m) && faces <= |m.faces|
  {
    if faces == 0 then Zero
    else
      var face := m.faces[faces - 1];
      Add(Accumulated(m, faces - 1, v, sqrt), Scale(multiset(face)[v] as real, FaceNormal(m.points, face, sqrt)))
  }

  /** The normal of vertex v after `compute_normals`: its accumulated sum, normalised. */
  function VertexNormal(m: Mesh, v: nat, sqrt: real -> real): Vec3
    requires WellFormed(m)
  {
    Unit(Accumulated(m, |m.faces|, v, sqrt), sqrt)
  }

  /** A vertex no face names accumulates nothing. */
  lemma {:induction false} AccumulatedUntouched(m: Mesh, faces: nat, v: nat, sqrt: real -> real)
    requires WellFormed(m) && faces <= |m.faces|
    requires forall f :: 0 <= f < faces ==> v !in m.faces[f]
    ensures Accumulated(m, faces, v, sqrt) == Zero
    decreases faces
  {
    if faces > 0 {
      AccumulatedUntouched(m, faces - 1, v, sqrt);
      assert multiset(m.faces[faces - 1])[v] == 0;
    }
  }

  /** Faces that name v once each contribute their unit normals: the sum over incident faces. */
  lemma AccumulatedStep(m: Mesh, faces: nat, v: nat, sqrt: real -> real)
    requires WellFormed(m) && 0 < faces <= |m.faces|
    ensures var face := m.faces[faces - 1];
            (v !in face ==> Accumulated(m, faces, v, sqrt) == Accumulated(m, faces - 1, v, sqrt)) &&
            (multiset(face)[v] == 1 ==>
               Accumulated(m, faces, v, sqrt) == Add(Accumulated(m, faces - 1, v, sqrt), FaceNormal(m.points, face, sqrt)))
  {
    var face := m.faces[faces - 1];
    var fn := FaceNormal(m.points, face, sqrt);
    if v !in face {
      assert multiset(face)[v] == 0;
      assert Scale(0.0, fn) == Zero;
    }
  }

  /**
    A vertex normal is the summed face normals scaled by a positive factor, of length one,
    unless the sum is zero.
  */
  lemma VertexNormalDirection(m: Mesh, v: nat, sqrt: real -> real)
    requires IsSqrt(sqrt) && WellFormed(m)
    requires Accumulated(m, |m.faces|, v, sqrt) != Zero
    ensures var n := VertexNormal(m, v, sqrt);
            Dot(n, n) == 1.0 &&
            exists k: real :: 0.0 < k && n == Scale(k, Accumulated(m, |m.faces|, v, sqrt))
  {
    UnitLength(Accumulated(m, |m.faces|, v, sqrt), sqrt);
  }

  /** `a + c fn + fn == a + (c + 1) fn`. */
  lemma AddScaleStep(a: Vec3, c: real, fn: Vec3)
    ensures Add(Add(a, Scale(c, fn)), fn) == Add(a, Scale(c + 1.0, fn))
  {
  }

  /** `a + 0 fn == a`. */
  lemma AddScaleZero(a: Vec3, fn: Vec3)
    ensures Add(a, Scale(0.0, fn)) == a
  {
  }

  // ---------------------------------------------------------------- the vertex buffer

  /** Float c of the nine of vertex v: three of the position, three of the normal, three of the colour. */
  function Component(positions: seq<Vec3>, normals: seq<Vec3>, colors: seq<Vec3>, v: nat, c: nat): real
    requires |normals| == |positions| && |colors| == |positions| && v < |positions| && c < 9
  {
    if c < 3 then At(positions[v], c) else if c < 6 then At(normals[v], c - 3) else At(colors[v], c - 6)
  }

  /** `np.concatenate([positions, normals, colors], axis=1).ravel()`: nine floats per vertex. */
  function Interleaved(positions: seq<Vec3>, normals: seq<Vec3>, colors: seq<Vec3>): (r: seq<real>)
    requires |normals| == |positions| && |colors| == |positions|
  {
    seq(9 * |positions|, k requires 0 <= k < 9 * |positions| => Component(positions, normals, colors, k / 9, k % 9))
  }

  /** Entry 9 v + c of the buffer is float c of vertex v. */
  lemma InterleavedEntry(positions: seq<Vec3>, normals: seq<Vec3>, colors: seq<Vec3>, v: nat, c: nat)
    requires |normals| == |positions| && |colors| == |positions| && v < |positions| && c < 9
    ensures 9 * v + c < |Interleaved(positions, normals, colors)|
    ensures Interleaved(positions, normals, colors)[9 * v + c] == Component(positions, normals, colors, v, c)
  {
    var k := 9 * v + c;
    assert k / 9 == v && k % 9 == c;
  }

  /** The attribute of vertex v at float `offset` within its nine. */
  function AttributeAt(buffer: seq<real>, v: nat, offset: nat): Vec3
    requires 9 * v + offset + 3 <= |buffer|
  {
    Vec3(buffer[9 * v + offset], buffer[9 * v + offset + 1], buffer[9 * v + offset + 2])
  }

  /** Floats `offset` to `offset + 2` of vertex v are the attribute stored there. */
  lemma InterleavedAttribute(positions: seq<Vec3>, normals: seq<Vec3>, colors: seq<Vec3>, v: nat, offset: nat)
    requires |normals| == |positions| && |colors| == |positions| && v < |positions|
    requires offset == 0 || offset == 3 || offset == 6
    ensures var r := Interleaved(positions, normals, colors);
            9 * v + offset + 3 <= |r| &&
            AttributeAt(r, v, offset) == (if offset == 0 then positions[v] else if offset == 3 then normals[v] else colors[v])
  {
    InterleavedEntry(positions, normals, colors, v, offset);
    InterleavedEntry(positions, normals, colors, v, offset + 1);
    InterleavedEntry(positions, normals, colors, v, offset + 2);
  }

  /** Reading back at offsets 0, 3 and 6 (bytes 0, 12 and 24 of the 36-byte stride) gives position, normal and colour. */
  lemma InterleavedLayout(positions: seq<Vec3>, normals: seq<Vec3>, colors: seq<Vec3>, v: nat)
    requires |normals| == |positions| && |colors| == |positions| && v < |positions|
    ensures var r := Interleaved(positions, normals, colors);
            |r| == 9 * |positions| &&
            AttributeAt(r, v, 0) == positions[v] && AttributeAt(r, v, 3) == normals[v] &&
            AttributeAt(r, v, 6) == colors[v]
  {
    InterleavedAttribute(positions, normals, colors, v, 0);
    InterleavedAttribute(positions, normals, colors, v, 3);
    InterleavedAttribute(positions, normals, colors, v, 6);
  }

  // ---------------------------------------------------------------- the viewer

  class MeshViewer {
    /** The mesh as read by `om.read_trimesh`. */
    const mesh: Mesh
    /** `indices`. */
    var indices: seq<nat>
    /** `n_verts`. */
    var nVerts: nat
    var positions: array<Vec3>
    var normals: array<Vec3>
    var valences: array<int>
    var colormapIndex: int
    var colors: seq<Vec3>

    ghost predicate Valid()
      reads this
    {
      WellFormed(mesh) && 0 < |mesh.points| && nVerts == |mesh.points| &&
      positions.Length == nVerts && normals.Length == nVerts && valences.Length == nVerts &&
      positions != normals
    }

    /**
      `MeshViewer(filename)`, from the mesh read from the file. A mesh without vertices is
      excluded: `color_coding` raises on it.
    */
    constructor (m: Mesh, valence: nat -> nat, cmap: (string, real) -> Vec3, sqrt: real -> real)
      requires WellFormed(m) && 0 < |m.points|
      ensures Valid() && mesh == m
      ensures indices == TriangleIndices(m.faces)
      ensures positions[..] == m.points
      ensures valences[..] == seq(|m.points|, v requires 0 <= v => valence(v) as int)
      ensures colormapIndex == DefaultColormap
      ensures Some(colors) == ColorCoding(valences[..], Colormaps[DefaultColormap], cmap)
      ensures forall v :: 0 <= v < normals.Length ==> normals[v] == VertexNormal(m, v, sqrt)
      ensures fresh(positions) && fresh(normals) && fresh(valences)
    {
      var tris := ExtractIndices(m.faces);
      var n := |m.points|;
      var vals := CalcValences(n, valence);
      mesh, indices, nVerts := m, tris, n;
      positions := new Vec3[n](_ => Zero);
      normals := new Vec3[n](_ => Zero);
      valences := vals;
      colormapIndex := DefaultColormap;
      new;
      colors := ColorCoding(valences[..], Colormaps[colormapIndex], cmap).value;
      CopyPoints(positions, m.points);
      ComputeNormals(sqrt);
    }

    /** The position loop of `__init__`: vertex v gets the point openmesh gives for it. */
    static method CopyPoints(positions: array<Vec3>, points: seq<Vec3>)
      requires positions.Length == |points|
      modifies positions
      ensures positions[..] == points
    {
      for v := 0 to |points|
        invariant forall k :: 0 <= k < v ==> positions[k] == points[k]
      {
        positions[v] := points[v];
      }
      assert positions[..] == points;
    }

    /** `calc_valences()`: entry v is the valence openmesh reports for vertex v. */
    static method CalcValences(n: nat, valence: nat -> nat) returns (vals: array<int>)
      ensures fresh(vals) && vals[..] == seq(n, v requires 0 <= v => valence(v) as int)
    {
      vals := new int[n](_ => 0);
      for v := 0 to n
        invariant forall k :: 0 <= k < v ==> vals[k] == valence(k) as int
      {
        vals[v] := valence(v) as int;
      }
      assert vals[..] == seq(n, v requires 0 <= v => valence(v) as int);
    }

    /** `compute_normals()`: zero, accumulate the unit face normals, normalise. */
    method ComputeNormals(sqrt: real -> real)
      requires Valid()
      modifies normals
      ensures forall v :: 0 <= v < normals.Length ==> normals[v] == VertexNormal(mesh, v, sqrt)
    {
      forall v | 0 <= v < normals.Length {
        normals[v] := Zero;
      }
      for f := 0 to |mesh.faces|
        invariant forall v :: 0 <= v < normals.Length ==> normals[v] == Accumulated(mesh, f, v, sqrt)
      {
        var face := mesh.faces[f];
        assert forall k :: 0 <= k < |face| ==> face[k] < |mesh.points|;
        var vertices := [mesh.points[face[0]], mesh.points[face[1]], mesh.points[face[2]]];
        var edge1 := Sub(vertices[1], vertices[0]);
        var edge2 := Sub(vertices[2], vertices[0]);
        var faceNormal := Unit(Cross(edge1, edge2), sqrt);
        assert faceNormal == FaceNormal(mesh.points, face, sqrt);
        AddFaceNormal(normals, face, faceNormal);
      }
      NormalizeAll(normals, sqrt);
    }

    /** The last loop of `compute_normals`: each normal divided by its own length. */
    static method NormalizeAll(normals: array<Vec3>, sqrt: real -> real)
      modifies normals
      ensures forall v :: 0 <= v < normals.Length ==> normals[v] == Unit(old(normals[v]), sqrt)
    {
      for i := 0 to normals.Length
        invariant forall v :: 0 <= v < i ==> normals[v] == Unit(old(normals[v]), sqrt)
        invariant forall v :: i <= v < normals.Length ==> normals[v] == old(normals[v])
      {
        normals[i] := Unit(normals[i], sqrt);
      }
    }

    /** One face of the loop in `compute_normals`: `fn` is added to the normal of each vertex the face names. */
    static method AddFaceNormal(normals: array<Vec3>, face: seq<nat>, fn: Vec3)
      requires forall k :: 0 <= k < |face| ==> face[k] < normals.Length
      modifies normals
      ensures forall v :: 0 <= v < normals.Length ==>
                normals[v] == Add(old(normals[v]), Scale(multiset(face)[v] as real, fn))
    {
      forall v | 0 <= v < normals.Length
        ensures normals[v] == Add(old(normals[v]), Scale(multiset(face[..0])[v] as real, fn))
      {
        AddScaleZero(normals[v], fn);
      }
      for k := 0 to |face|
        invariant forall v :: 0 <= v < normals.Length ==>
                    normals[v] == Add(old(normals[v]), Scale(multiset(face[..k])[v] as real, fn))
      {
        var vh := face[k];
        assert face[..k + 1] == face[..k] + [vh];
        AddScaleStep(old(normals[vh]), multiset(face[..k])[vh] as real, fn);
        normals[vh] := Add(normals[vh], fn);
      }
      assert face[..|face|] == face;
    }

    /**
      `set_colormap(index)`: the index is stored and the colours recomputed with that
      colormap; `ok` is false when the index is out of range for the list, where the source
      raises after storing the index and the colours stay as they were.
    */
    method SetColormap(index: int, cmap: (string, real) -> Vec3) returns (ok: bool)
      requires Valid()
      modifies this
      ensures Valid()
      ensures indices == old(indices) && nVerts == old(nVerts) && positions == old(positions)
      ensures normals == old(normals) && valences == old(valences)
      ensures colormapIndex == index
      ensures ok <==> ColormapName(index).Some?
      ensures ok ==> Some(colors) == ColorCoding(valences[..], ColormapName(index).value, cmap)
      ensures !ok ==> colors == old(colors)
    {
      colormapIndex := index;
      var name := ColormapName(index);
      if name.None? {
        return false;
      }
      colors := ColorCoding(valences[..], name.value, cmap).value;
      ok := true;
    }
  }
}
