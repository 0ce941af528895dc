/**
  The ray tracer's scene and its file format. A scene file gives the number of objects on
  its first line and the ambient colour on its second, then the objects one after another:
  a header line naming the kind of object, followed by one line per attribute, each a label
  and its values. A triangle is three vertices of five lines each (position, normal, diffuse,
  specular, shininess), a sphere five lines (position, radius, diffuse, specular, shininess)
  and a light two (position, colour); a header of any other kind is skipped on its own.

  The file is a sequence of lines already split into tokens at white space, each token
  classified by whether `int` and `float` accept it. Reading past the end gives the empty
  line, as `readline` does.
*/
module Scene {
  import opened Vectors
  import opened Options

  datatype Light = Light(pos: Vec3, color: Vec3)

  /**
    `v.normalize()` for the vector `v` read from the file. `Vec3.normalize` is not part of
    this model, so a normalised vector is kept as the vector it was computed from.
  */
  datatype Normal = Normalized(of: Vec3)

  /** `Vertex(pos, diffuse, specular, normal, shininess)`. */
  datatype Vertex = Vertex(pos: Vec3, diffuse: Vec3, specular: Vec3, normal: Normal, shininess: real)

  /** `Triangle(v0, v1, v2)`, whose `vertices` are `[v0, v1, v2]`. */
  datatype Triangle = Triangle(v0: Vertex, v1: Vertex, v2: Vertex)

  datatype Sphere = Sphere(pos: Vec3, radius: real, diffuse: Vec3, specular: Vec3, shininess: real)

  /** One object record as read from the file; `Skipped` for a header of an unknown kind. */
  datatype Object = TriangleObject(t: Triangle) | SphereObject(s: Sphere) | LightObject(l: Light) | Skipped

  /** The state of a `Scene`. */
  datatype SceneState = SceneState(ambient: Light, triangles: seq<Triangle>, spheres: seq<Sphere>,
                                   lights: seq<Light>, cameraPos: Vec3)

  /**
    A token of the file, classified by the conversions that accept it: `Int` for a token
    `int` accepts (and so `float` too), `Real` for one only `float` accepts, `Word` for one
    neither accepts.
  */
  datatype Token = Int(i: int) | Real(r: real) | Word(w: string)

  /** `float(token)`; None where Python raises. */
  function AsFloat(t: Token): (r: Option<real>)
    ensures r.None? <==> t.Word?
    ensures t.Int? ==> r == Some(t.i as real)
  {
    match t
    case Int(i) => Some(i as real)
    case Real(x) => Some(x)
    case Word(_) => None
  }

  /** `int(token)`; None where Python raises. */
  function AsInt(t: Token): (r: Option<int>)
    ensures r.Some? <==> t.Int?
  {
    if t.Int? then Some(t.i) else None
  }

  // ---------------------------------------------------------------- reading lines

  /** The tokens of line `pos`; the empty line past the end of the file. */
  function Line(lines: seq<seq<Token>>, pos: nat): seq<Token> {
    if pos < |lines| then lines[pos] else []
  }

  /** `Vec3(*map(float, line.split()[1:4]))`: the three values after the label. */
  function VecAt(lines: seq<seq<Token>>, pos: nat): Option<Vec3> {
    var t := Line(lines, pos);
    if |t| < 4 then None
    else
      var x, y, z := AsFloat(t[1]), AsFloat(t[2]), AsFloat(t[3]);
      if x.Some? && y.Some? && z.Some? then Some(Vec3(x.value, y.value, z.value)) else None
  }

  /** `float(line.split()[1])`: the one value after the label. */
  function ScalarAt(lines: seq<seq<Token>>, pos: nat): Option<real> {
    var t := Line(lines, pos);
    if |t| < 2 then None else AsFloat(t[1])
  }

  /** A triangle vertex from the five lines at `pos`: position, normal, diffuse, specular, shininess. */
  function ParseVertex(lines: seq<seq<Token>>, pos: nat): Option<Vertex> {
    var p, n, d, s, sh := VecAt(lines, pos), VecAt(lines, pos + 1), VecAt(lines, pos + 2),
                          VecAt(lines, pos + 3), ScalarAt(lines, pos + 4);
    if p.Some? && n.Some? && d.Some? && s.Some? && sh.Some? then
      Some(Vertex(p.value, d.value, s.value, Normalized(n.value), sh.value))
    else None
  }

  /** `k` vertices of five lines each, from line `pos` on; None as soon as one cannot be read. */
  function ParseVertices(lines: seq<seq<Token>>, pos: nat, k: nat): (r: Option<seq<Vertex>>)
    ensures r.Some? ==> |r.value| == k
    decreases k
  {
    if k == 0 then Some([])
    else
      match ParseVertex(lines, pos)
      case None => None
      case Some(v) =>
        match ParseVertices(lines, pos + 5, k - 1)
        case None => None
        case Some(vs) => Some([v] + vs)
  }

  /** The vertices read so far followed by those still to be read, if they can be. */
  function After(done: seq<Vertex>, r: Option<seq<Vertex>>): Option<seq<Vertex>> {
    match r
    case None => None
    case Some(vs) => Some(done + vs)
  }

  /** One turn of the vertex loop: the vertex at `at` joins those read, or reading fails. */
  lemma ParseVerticesStep(lines: seq<seq<Token>>, at: nat, next: nat, k: nat, after: nat, done: seq<Vertex>)
    requires next == at + 5 && k == after + 1
    ensures ParseVertex(lines, at).None? ==> ParseVertices(lines, at, k).None?
    ensures ParseVertex(lines, at).Some? ==>
              After(done, ParseVertices(lines, at, k)) ==
              After(done + [ParseVertex(lines, at).value], ParseVertices(lines, next, after))
  {
    var r := ParseVertices(lines, next, after);
    if ParseVertex(lines, at).Some? && r.Some? {
      var v := ParseVertex(lines, at).value;
      assert done + ([v] + r.value) == (done + [v]) + r.value;
    }
  }

  /** Nothing read yet, nothing left to read. */
  lemma AfterEnds(r: Option<seq<Vertex>>, done: seq<Vertex>)
    ensures After([], r) == r
    ensures After(done, Some([])) == Some(done)
  {
    if r.Some? {
      assert [] + r.value == r.value;
    }
    assert done + [] == done;
  }

  /** A triangle from the fifteen lines at `pos`: its three vertices in order. */
  function ParseTriangle(lines: seq<seq<Token>>, pos: nat): Option<Triangle> {
    match ParseVertices(lines, pos, 3)
    case None => None
    case Some(vs) => Some(Triangle(vs[0], vs[1], vs[2]))
  }

  /** A triangle's vertices are the three five-line groups after its header, in order. */
  lemma TriangleLayout(lines: seq<seq<Token>>, pos: nat)
    ensures ParseTriangle(lines, pos).Some? <==>
            ParseVertex(lines, pos).Some? && ParseVertex(lines, pos + 5).Some? && ParseVertex(lines, pos + 10).Some?
    ensures ParseTriangle(lines, pos).Some? ==>
              var t := ParseTriangle(lines, pos).value;
              Some(t.v0) == ParseVertex(lines, pos) && Some(t.v1) == ParseVertex(lines, pos + 5) &&
              Some(t.v2) == ParseVertex(lines, pos + 10)
  {
    var p5, p10, p15 := pos + 5, pos + 10, pos + 15;
    assert ParseVertices(lines, p15, 0) == Some([]);
    var r2 := ParseVertices(lines, p10, 1);
    var r1 := ParseVertices(lines, p5, 2);
    var r0 := ParseVertices(lines, pos, 3);
    assert r2.Some? <==> ParseVertex(lines, p10).Some?;
    assert r1.Some? <==> ParseVertex(lines, p5).Some? && r2.Some?;
    assert r0.Some? <==> ParseVertex(lines, pos).Some? && r1.Some?;
    if r0.Some? {
      assert r0.value == [ParseVertex(lines, pos).value] + r1.value;
      assert r1.value == [ParseVertex(lines, p5).value] + r2.value;
      assert r2.value == [ParseVertex(lines, p10).value];
    }
  }

  /** A sphere from the five lines at `pos`: position, radius, diffuse, specular, shininess. */
  function ParseSphere(lines: seq<seq<Token>>, pos: nat): Option<Sphere> {
    var p, r, d, s, sh := VecAt(lines, pos), ScalarAt(lines, pos + 1), VecAt(lines, pos + 2),
                          VecAt(lines, pos + 3), ScalarAt(lines, pos + 4);
    if p.Some? && r.Some? && d.Some? && s.Some? && sh.Some? then
      Some(Sphere(p.value, r.value, d.value, s.value, sh.value))
    else None
  }

  /** A light from the two lines at `pos`: position and colour. */
  function ParseLight(lines: seq<seq<Token>>, pos: nat): Option<Light> {
    var p, c := VecAt(lines, pos), VecAt(lines, pos + 1);
    if p.Some? && c.Some? then Some(Light(p.value, c.value)) else None
  }

  /** The number of attribute lines after the header of each kind of object. */
  function BodyLines(o: Object): nat {
    match o
    case TriangleObject(_) => 15
    case SphereObject(_) => 5
    case LightObject(_) => 2
    case Skipped => 0
  }

  /** The outcome of reading one object: the object and the line after it, or failure. */
  datatype Step = Read(obj: Object, next: nat) | Failed

  /**
    The object whose header is line `pos`, and the line after it; `Failed` where the source
    raises (an empty header line, a missing or malformed value).
  */
  function ParseObject(lines: seq<seq<Token>>, pos: nat): (r: Step) {
    var header := Line(lines, pos);
    if |header| == 0 then Failed
    else if header[0] == Word("triangle") then
      match ParseTriangle(lines, pos + 1)
      case Some(t) => Read(TriangleObject(t), pos + 16)
      case None => Failed
    else if header[0] == Word("sphere") then
      match ParseSphere(lines, pos + 1)
      case Some(s) => Read(SphereObject(s), pos + 6)
      case None => Failed
    else if header[0] == Word("light") then
      match ParseLight(lines, pos + 1)
      case Some(l) => Read(LightObject(l), pos + 3)
      case None => Failed
    else Read(Skipped, pos + 1)
  }

  /** Each object takes its header line and exactly its attribute lines; unknown kinds take the header only. */
  lemma ParseObjectAdvance(lines: seq<seq<Token>>, pos: nat)
    requires ParseObject(lines, pos).Read?
    ensures var Read(o, next) := ParseObject(lines, pos);
            var header := Line(lines, pos);
            next == pos + 1 + BodyLines(o) && |header| > 0 &&
            (o.TriangleObject? <==> header[0] == Word("triangle")) &&
            (o.SphereObject? <==> header[0] == Word("sphere")) &&
            (o.LightObject? <==> header[0] == Word("light"))
  {
  }

  /** Only vertex normals are normalised; positions, colours and shininess are stored as read. */
  lemma VertexFields(lines: seq<seq<Token>>, pos: nat)
    requires ParseVertex(lines, pos).Some?
    ensures var v := ParseVertex(lines, pos).value;
            Some(v.pos) == VecAt(lines, pos) &&
            (exists n :: Some(n) == VecAt(lines, pos + 1) && v.normal == Normalized(n)) &&
            Some(v.diffuse) == VecAt(lines, pos + 2) && Some(v.specular) == VecAt(lines, pos + 3) &&
            Some(v.shininess) == ScalarAt(lines, pos + 4)
  {
    var n := VecAt(lines, pos + 1).value;
    assert Some(n) == VecAt(lines, pos + 1);
  }

  // ---------------------------------------------------------------- the whole file

  /** The scene with one more object appended to the list of its kind. */
  function Apply(st: SceneState, o: Object): SceneState {
    match o
    case TriangleObject(t) => st.(triangles := st.triangles + [t])
    case SphereObject(s) => st.(spheres := st.spheres + [s])
    case LightObject(l) => st.(lights := st.lights + [l])
    case Skipped => st
  }

  /** The scene after appending the objects one after another, in order. */
  function AppendAll(st: SceneState, objs: seq<Object>): SceneState
    decreases |objs|
  {
    if |objs| == 0 then st else AppendAll(Apply(st, objs[0]), objs[1..])
  }

  /** The objects read, in file order, up to the first one that cannot be read. */
  function ObjectsRead(lines: seq<seq<Token>>, pos: nat, remaining: nat): (objs: seq<Object>)
    ensures |objs| <= remaining
    decreases remaining
  {
    if remaining == 0 then []
    else
      match ParseObject(lines, pos)
      case Failed => []
      case Read(o, next) => [o] + ObjectsRead(lines, next, remaining - 1)
  }

  /** The triangle an object contributes, if it is one; likewise for spheres and lights. */
  function TriangleIn(o: Object): seq<Triangle> {
    if o.TriangleObject? then [o.t] else []
  }

  function SphereIn(o: Object): seq<Sphere> {
    if o.SphereObject? then [o.s] else []
  }

  function LightIn(o: Object): seq<Light> {
    if o.LightObject? then [o.l] else []
  }

  function TrianglesOf(objs: seq<Object>): seq<Triangle> {
    if |objs| == 0 then [] else TriangleIn(objs[0]) + TrianglesOf(objs[1..])
  }

  function SpheresOf(objs: seq<Object>): seq<Sphere> {
    if |objs| == 0 then [] else SphereIn(objs[0]) + SpheresOf(objs[1..])
  }

  function LightsOf(objs: seq<Object>): seq<Light> {
    if |objs| == 0 then [] else LightIn(objs[0]) + LightsOf(objs[1..])
  }

  /**
    Appending objects extends each list, in order, by the objects of its kind, and keeps
    the ambient light and the camera.
  */
  lemma {:induction false} AppendAllExtends(st: SceneState, objs: seq<Object>)
    ensures var r := AppendAll(st, objs);
            r.triangles == st.triangles + TrianglesOf(objs) &&
            r.spheres == st.spheres + SpheresOf(objs) &&
            r.lights == st.lights + LightsOf(objs) &&
            r.ambient == st.ambient && r.cameraPos == st.cameraPos
    decreases |objs|
  {
    if |objs| > 0 {
      var o, rest := objs[0], objs[1..];
      assert objs == [o] + rest;
      AppendAllExtends(Apply(st, o), rest);
      ApplyKinds(st, o, rest);
    }
  }

  /**
    One turn of the object loop: a failed read ends the objects read; a successful one
    leaves, after its object is appended, the same outcome for the objects after it.
  */
  lemma ObjectsReadStep(lines: seq<seq<Token>>, pos: nat, remaining: nat, after: nat, st: SceneState, step: Step)
    requires remaining == after + 1 && step == ParseObject(lines, pos)
    ensures step.Failed? ==> ObjectsRead(lines, pos, remaining) == []
    ensures step.Read? ==>
              var objs := ObjectsRead(lines, pos, remaining);
              var rest := ObjectsRead(lines, step.next, after);
              (AppendAll(st, objs), |objs| == remaining) == (AppendAll(Apply(st, step.obj), rest), |rest| == after)
  {
    if step.Read? {
      var objs := ObjectsRead(lines, pos, remaining);
      assert objs[1..] == ObjectsRead(lines, step.next, after);
    }
  }

  /** Appending one object extends exactly the list of its kind. */
  lemma ApplyKinds(st: SceneState, o: Object, rest: seq<Object>)
    ensures Apply(st, o).triangles == st.triangles + TriangleIn(o)
    ensures Apply(st, o).spheres == st.spheres + SphereIn(o)
    ensures Apply(st, o).lights == st.lights + LightIn(o)
    ensures Apply(st, o).ambient == st.ambient && Apply(st, o).cameraPos == st.cameraPos
    ensures TrianglesOf([o] + rest) == TriangleIn(o) + TrianglesOf(rest)
    ensures SpheresOf([o] + rest) == SphereIn(o) + SpheresOf(rest)
    ensures LightsOf([o] + rest) == LightIn(o) + LightsOf(rest)
  {
    assert ([o] + rest)[1..] == rest;
  }

  /** Objects of one kind are no more than the objects read. */
  lemma {:induction false} KindsBounded(objs: seq<Object>)
    ensures |TrianglesOf(objs)| + |SpheresOf(objs)| + |LightsOf(objs)| <= |objs|
    decreases |objs|
  {
    if |objs| > 0 {
      KindsBounded(objs[1..]);
    }
  }

  /** `int(f.readline().strip())`: the object count, when the first line is one integer token. */
  function Count(lines: seq<seq<Token>>): Option<int> {
    var first := Line(lines, 0);
    if |first| == 1 then AsInt(first[0]) else None
  }

  /** The number of objects the loop asks for: `range(count)` is empty for a negative count. */
  function Requested(count: int): nat {
    if count < 0 then 0 else count
  }

  /**
    `load_scene(path)` on a scene: the result and whether it completed; where the source
    raises, the scene keeps what was read before.
  */
  function LoadScene(st: SceneState, lines: seq<seq<Token>>): (r: (SceneState, bool)) {
    match (Count(lines), VecAt(lines, 1))
    case (Some(count), Some(color)) =>
      var objs := ObjectsRead(lines, 2, Requested(count));
      (AppendAll(st.(ambient := st.ambient.(color := color)), objs), |objs| == Requested(count))
    case _ => (st, false)
  }

  /**
    A file whose count or ambient line cannot be read changes nothing. Otherwise loading
    sets the ambient colour from line 2, keeps the ambient position and the camera, extends
    the object lists, and appends at most the announced number of objects.
  */
  lemma LoadSceneEffect(st: SceneState, lines: seq<seq<Token>>)
    ensures var (r, ok) := LoadScene(st, lines);
            var added := |r.triangles| - |st.triangles| + |r.spheres| - |st.spheres| + |r.lights| - |st.lights|;
            if Count(lines).None? || VecAt(lines, 1).None? then r == st && !ok
            else
              r.ambient == Light(st.ambient.pos, VecAt(lines, 1).value) && r.cameraPos == st.cameraPos &&
              st.triangles <= r.triangles && st.spheres <= r.spheres && st.lights <= r.lights &&
              0 <= added <= Requested(Count(lines).value)
  {
    if Count(lines).Some? && VecAt(lines, 1).Some? {
      var st1 := st.(ambient := st.ambient.(color := VecAt(lines, 1).value));
      var objs := ObjectsRead(lines, 2, Requested(Count(lines).value));
      AppendAllExtends(st1, objs);
      KindsBounded(objs);
    }
  }

  /**
    The objects of each kind, in the order the file gives them; loading completes exactly
    when all announced objects are read.
  */
  lemma LoadSceneOrder(st: SceneState, lines: seq<seq<Token>>)
    requires Count(lines).Some? && VecAt(lines, 1).Some?
    ensures var (r, ok) := LoadScene(st, lines);
            var n := Requested(Count(lines).value);
            var objs := ObjectsRead(lines, 2, n);
            r.triangles == st.triangles + TrianglesOf(objs) && r.spheres == st.spheres + SpheresOf(objs) &&
            r.lights == st.lights + LightsOf(objs) && (ok <==> |objs| == n)
  {
    var st1 := st.(ambient := st.ambient.(color := VecAt(lines, 1).value));
    AppendAllExtends(st1, ObjectsRead(lines, 2, Requested(Count(lines).value)));
  }

  // ---------------------------------------------------------------- the scene object

  class Scene {
    var ambient: Light
    var triangles: seq<Triangle>
    var spheres: seq<Sphere>
    var lights: seq<Light>
    var cameraPos: Vec3

    function State(): SceneState
      reads this
    {
      SceneState(ambient, triangles, spheres, lights, cameraPos)
    }

    /** `Scene()`: ambient light at the origin with colour 0.1, no objects, the camera at the origin. */
    constructor ()
      ensures ambient == Light(Zero, Vec3(0.1, 0.1, 0.1))
      ensures triangles == [] && spheres == [] && lights == [] && cameraPos == Zero
    {
      ambient := Light(Zero, Vec3(0.1, 0.1, 0.1));
      triangles, spheres, lights := [], [], [];
      cameraPos := Zero;
    }

    /** `load_scene(path)`, line by line; `ok` is false where the source raises. */
    method LoadSceneFrom(lines: seq<seq<Token>>) returns (ok: bool)
      modifies this
      ensures (State(), ok) == LoadScene(old(State()), lines)
    {
      var count := Count(lines);
      if count.None? {
        return false;
      }
      var color := VecAt(lines, 1);
      if color.None? {
        return false;
      }
      ambient := ambient.(color := color.value);
      var n := Requested(count.value);
      var cursor: nat := 2;
      ghost var goal := LoadScene(old(State()), lines);
      ghost var left: nat := n;
      for k := 0 to n
        invariant left == n - k
        invariant var objs := ObjectsRead(lines, cursor, left);
                  goal == (AppendAll(State(), objs), |objs| == left)
      {
        var step := ReadObject(lines, cursor);
        ghost var after: nat := left - 1;
        ObjectsReadStep(lines, cursor, left, after, State(), step);
        if step.Failed? {
          return false;
        }
        Append(step.obj);
        cursor, left := step.next, after;
      }
      ok := true;
      assert goal == LoadScene(old(State()), lines);
    }

    /** `self.triangles.append(…)`, `self.spheres.append(…)` or `self.lights.append(…)` by kind. */
    method Append(o: Object)
      modifies this
      ensures State() == Apply(old(State()), o)
    {
      match o {
        case TriangleObject(t) => triangles := triangles + [t];
        case SphereObject(s) => spheres := spheres + [s];
        case LightObject(l) => lights := lights + [l];
        case Skipped =>
      }
    }

    /** One object: its header line decides which attribute lines follow. */
    static method ReadObject(lines: seq<seq<Token>>, cursor: nat) returns (step: Step)
      ensures step == ParseObject(lines, cursor)
    {
      var line := Line(lines, cursor);
      if |line| == 0 {
        return Failed;
      }
      var objType := line[0];
      if objType == Word("triangle") {
        var triangle := ReadTriangle(lines, cursor + 1);
        if triangle.None? {
          return Failed;
        }
        step := Read(TriangleObject(triangle.value), cursor + 16);
      } else if objType == Word("sphere") {
        var sphere := ParseSphere(lines, cursor + 1);
        if sphere.None? {
          return Failed;
        }
        step := Read(SphereObject(sphere.value), cursor + 6);
      } else if objType == Word("light") {
        var light := ParseLight(lines, cursor + 1);
        if light.None? {
          return Failed;
        }
        step := Read(LightObject(light.value), cursor + 3);
      } else {
        step := Read(Skipped, cursor + 1);
      }
    }

    /** The three vertices of a triangle, five lines each; None as soon as one cannot be read. */
    static method ReadTriangle(lines: seq<seq<Token>>, start: nat) returns (t: Option<Triangle>)
      ensures t == ParseTriangle(lines, start)
    {
      var vertices: seq<Vertex> := [];
      var at := start;
      ghost var left: nat := 3;
      AfterEnds(ParseVertices(lines, start, 3), []);
      for j := 0 to 3
        invariant |vertices| == j && at == start + 5 * j && left == 3 - j
        invariant ParseVertices(lines, start, 3) == After(vertices, ParseVertices(lines, at, left))
      {
        var vertex := ReadVertex(lines, at);
        var next := at + 5;
        ghost var after: nat := left - 1;
        ParseVerticesStep(lines, at, next, left, after, vertices);
        if vertex.None? {
          return None;
        }
        vertices := vertices + [vertex.value];
        at, left := next, after;
      }
      AfterEnds(None, vertices);
      t := Some(Triangle(vertices[0], vertices[1], vertices[2]));
    }

    /** The five lines of one triangle vertex, read in file order. */
    static method ReadVertex(lines: seq<seq<Token>>, at: nat) returns (v: Option<Vertex>)
      ensures v == ParseVertex(lines, at)
    {
      var pos := VecAt(lines, at);
      var normal := VecAt(lines, at + 1);
      var diffuse := VecAt(lines, at + 2);
      var specular := VecAt(lines, at + 3);
      var shininess := ScalarAt(lines, at + 4);
      if pos.None? || normal.None? || diffuse.None? || specular.None? || shininess.None? {
        return None;
      }
      v := Some(Vertex(pos.value, diffuse.value, specular.value, Normalized(normal.value), shininess.value));
    }
  }
}
