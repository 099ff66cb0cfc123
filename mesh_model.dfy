/** Model (Model.cpp): a mesh model loaded through tinyobjloader. Loading
    rebuilds the material list and one indexed mesh per shape, merging
    corners that share a (position, normal, texcoord) index triple. The same
    class also drives a model around a square track, or makes it follow the
    camera. */
module MeshModel {
  import opened Vectors
  import opened Wrappers
  import opened Text

  /** One corner reference of tinyobj::index_t; negative means absent. */
  datatype Index = Index(vertexIndex: int, normalIndex: int, texcoordIndex: int)

  /** tinyobj::attrib_t: flat float arrays, three per position and normal, two per texcoord. */
  datatype Attrib = Attrib(vertices: seq<real>, normals: seq<real>, texcoords: seq<real>)

  /** tinyobj::shape_t's mesh: triangulated corner list and per-face material ids. */
  datatype Shape = Shape(indices: seq<Index>, materialIds: seq<int>)

  /** The fields of tinyobj::material_t that ProcessMaterials reads. */
  datatype ObjMaterial = ObjMaterial(
    name: string, ambient: Vec3, diffuse: Vec3, specular: Vec3, shininess: real, dissolve: real,
    diffuseTexname: string, normalTexname: string, specularTexname: string)

  /** What tinyobj::LoadObj hands back: its return value, warning and error
      text, and the parsed data. */
  datatype TinyObj = TinyObj(ret: bool, warn: string, err: string,
    attrib: Attrib, shapes: seq<Shape>, materials: seq<ObjMaterial>)

  datatype Vec2 = Vec2(x: real, y: real)

  datatype Vertex = Vertex(position: Vec3, normal: Vec3, texCoords: Vec2)

  /** A loaded material; texture handles are 0 when absent. */
  datatype Material = Material(
    name: string, ambient: Vec3, diffuse: Vec3, specular: Vec3, shininess: real, alpha: real,
    diffuseTexture: nat, normalTexture: nat, specularTexture: nat, alphaTexture: nat,
    diffuseTexPath: string, normalTexPath: string, specularTexPath: string)

  /** A mesh; its GL buffer handles are not modelled. */
  datatype Mesh = Mesh(vertices: seq<Vertex>, indices: seq<nat>, materialIndex: int)

  // ---------------------------------------------------------------- directory

  /** GetDirectory: the text before the last '/', or, when there is no '/',
      before the last '\\'; "." when there is neither. No separator is kept. */
  function GetDirectory(filepath: string): (d: string)
    ensures LastIndexOf(filepath, '/').Some? ==> d == filepath[..LastIndexOf(filepath, '/').value]
    ensures LastIndexOf(filepath, '/').None? && LastIndexOf(filepath, '\\').Some? ==>
      d == filepath[..LastIndexOf(filepath, '\\').value]
    ensures '/' !in filepath && '\\' !in filepath ==> d == "."
  {
    match LastIndexOf(filepath, '/')
    case Some(p) => filepath[..p]
    case None =>
      match LastIndexOf(filepath, '\\')
      case Some(p) => filepath[..p]
      case None => "."
  }

  /** ProcessMaterials builds texture paths as directory + "/" + name, and
      GetDirectory gives the directory back from such a path. */
  lemma {:induction false} GetDirectoryOfJoined(dir: string, name: string)
    requires '/' !in name
    ensures GetDirectory(dir + "/" + name) == dir
  {
    var path := dir + "/" + name;
    LastIndexOfAfter(dir + "/", name, '/');
    assert (dir + "/")[|dir|] == '/';
    assert path[..|dir|] == dir;
  }

  /** The last c in a + b lies in a when b has none. */
  lemma {:induction false} LastIndexOfAfter(a: string, b: string, c: char)
    requires c !in b && |a| > 0 && a[|a| - 1] == c
    ensures LastIndexOf(a + b, c) == Some(|a| - 1)
  {
    if |b| > 0 {
      assert (a + b)[..|a + b| - 1] == a + b[..|b| - 1];
      LastIndexOfAfter(a, b[..|b| - 1], c);
    } else {
      assert a + b == a;
    }
  }

  /** Unlike the OBJ and MTL loaders' helper, GetDirectory keeps no trailing
      separator, falls back to "." rather than "./", and prefers the last '/'
      even when a '\\' comes after it. */
  lemma DirectoryHelpersDiffer()
    ensures GetDirectory("a/b\\c") == "a"
    ensures DirectoryWithSeparator("a/b\\c") == "a/b\\"
    ensures GetDirectory("c") == "." && DirectoryWithSeparator("c") == "./"
  {
    assert LastIndexOf("a/b\\c", '/') == Some(1) by {
      assert "a/b\\c"[..4] == "a/b\\";
      assert "a/b\\"[..3] == "a/b";
      assert "a/b"[..2] == "a/";
    }
    assert LastSeparator("a/b\\c") == Some(3) by {
      assert "a/b\\c"[..4] == "a/b\\";
    }
  }

  // ---------------------------------------------------------------- materials

  /** The texture path ProcessMaterials builds, "" when no texture is named. */
  function TexPath(directory: string, texname: string): (p: string)
    ensures texname != "" ==> p == directory + "/" + texname
    ensures texname == "" ==> p == ""
  {
    if texname == "" then "" else directory + "/" + texname
  }

  /** The handle for a texture path: the loader's, or 0 when none is named. */
  function TexHandle(path: string, loadTexture: string -> nat): nat {
    if path == "" then 0 else loadTexture(path)
  }

  /** The material ProcessMaterials makes from one tinyobj material. */
  function MaterialOf(directory: string, o: ObjMaterial, loadTexture: string -> nat): (m: Material)
    ensures m.alpha > 0.0
    ensures m.alpha == (if o.dissolve <= 0.0 then 1.0 else o.dissolve)
    ensures m.name == o.name && m.ambient == o.ambient && m.diffuse == o.diffuse
      && m.specular == o.specular && m.shininess == o.shininess
    ensures m.diffuseTexPath == TexPath(directory, o.diffuseTexname)
      && m.normalTexPath == TexPath(directory, o.normalTexname)
      && m.specularTexPath == TexPath(directory, o.specularTexname)
    ensures o.diffuseTexname == "" ==> m.diffuseTexture == 0
    ensures m.alphaTexture == 0
  {
    var diffusePath := TexPath(directory, o.diffuseTexname);
    var normalPath := TexPath(directory, o.normalTexname);
    var specularPath := TexPath(directory, o.specularTexname);
    Material(o.name, o.ambient, o.diffuse, o.specular, o.shininess,
      if o.dissolve <= 0.0 then 1.0 else o.dissolve,
      TexHandle(diffusePath, loadTexture), TexHandle(normalPath, loadTexture),
      TexHandle(specularPath, loadTexture), 0,
      diffusePath, normalPath, specularPath)
  }

  function MaterialsOf(directory: string, os: seq<ObjMaterial>, loadTexture: string -> nat): (ms: seq<Material>)
    ensures |ms| == |os|
    ensures forall j :: 0 <= j < |os| ==> ms[j] == MaterialOf(directory, os[j], loadTexture)
  {
    seq(|os|, j requires 0 <= j < |os| => MaterialOf(directory, os[j], loadTexture))
  }

  // ---------------------------------------------------------------- meshes

  /** The attribute arrays hold the entries a non-negative index refers to. */
  predicate IndexReadable(a: Attrib, ix: Index) {
    (ix.vertexIndex >= 0 ==> 3 * ix.vertexIndex + 2 < |a.vertices|) &&
    (ix.normalIndex >= 0 ==> 3 * ix.normalIndex + 2 < |a.normals|) &&
    (ix.texcoordIndex >= 0 ==> 2 * ix.texcoordIndex + 1 < |a.texcoords|)
  }

  /** What ProcessMesh reads for one corner: a missing position is the
      origin, a missing normal (0, 1, 0), a missing texcoord (0, 0). */
  function VertexOf(a: Attrib, ix: Index): (v: Vertex)
    requires IndexReadable(a, ix)
    ensures ix.vertexIndex < 0 ==> v.position == Zero3
    ensures ix.normalIndex < 0 ==> v.normal == Vec3(0.0, 1.0, 0.0)
    ensures ix.texcoordIndex < 0 ==> v.texCoords == Vec2(0.0, 0.0)
  {
    var vi, ni, ti := ix.vertexIndex, ix.normalIndex, ix.texcoordIndex;
    Vertex(
      if vi >= 0 then Vec3(a.vertices[3 * vi], a.vertices[3 * vi + 1], a.vertices[3 * vi + 2]) else Zero3,
      if ni >= 0 then Vec3(a.normals[3 * ni], a.normals[3 * ni + 1], a.normals[3 * ni + 2]) else Vec3(0.0, 1.0, 0.0),
      if ti >= 0 then Vec2(a.texcoords[2 * ti], a.texcoords[2 * ti + 1]) else Vec2(0.0, 0.0))
  }

  predicate AllReadable(a: Attrib, ixs: seq<Index>) {
    forall j :: 0 <= j < |ixs| ==> IndexReadable(a, ixs[j])
  }

  /** ProcessMesh's state: the vertices and indices so far and the
      uniqueVertices table, keyed by the index triple (the source's key string
      "v_n_t" is an injective spelling of that triple). */
  datatype Dedup = Dedup(vertices: seq<Vertex>, indices: seq<nat>, unique: map<Index, nat>)

  function DedupStep(a: Attrib, st: Dedup, ix: Index): Dedup
    requires IndexReadable(a, ix)
  {
    if ix in st.unique then st.(indices := st.indices + [st.unique[ix]])
    else Dedup(st.vertices + [VertexOf(a, ix)], st.indices + [|st.vertices|], st.unique[ix := |st.vertices|])
  }

  /** The state after the corners ixs, from an empty mesh. */
  function DedupRead(a: Attrib, ixs: seq<Index>): Dedup
    requires AllReadable(a, ixs)
  {
    if |ixs| == 0 then Dedup([], [], map[])
    else DedupStep(a, DedupRead(a, ixs[..|ixs| - 1]), ixs[|ixs| - 1])
  }

  /** No two keys share a slot. */
  ghost predicate SlotsDistinct(u: map<Index, nat>) {
    forall k1, k2 :: k1 in u && k2 in u && k1 != k2 ==> u[k1] != u[k2]
  }

  /** The invariant of the dedup table after the corners ixs. */
  ghost predicate DedupGood(a: Attrib, ixs: seq<Index>, st: Dedup)
    requires AllReadable(a, ixs)
  {
    |st.indices| == |ixs| &&
    (forall k :: k in st.unique <==> k in ixs) &&
    |st.vertices| == |st.unique| &&
    (forall k :: k in st.unique ==> st.unique[k] < |st.vertices| && st.vertices[st.unique[k]] == VertexOf(a, k)) &&
    SlotsDistinct(st.unique) &&
    (forall j :: 0 <= j < |ixs| ==> st.indices[j] == st.unique[ixs[j]])
  }

  lemma {:induction false} DedupReadGood(a: Attrib, ixs: seq<Index>)
    requires AllReadable(a, ixs)
    ensures DedupGood(a, ixs, DedupRead(a, ixs))
  {
    if |ixs| > 0 {
      var init := ixs[..|ixs| - 1];
      DedupReadGood(a, init);
      assert ixs == init + [ixs[|ixs| - 1]];
      DedupStepGood(a, init, ixs[|ixs| - 1], DedupRead(a, init));
    }
  }

  /** One corner keeps the dedup invariant. */
  lemma DedupStepGood(a: Attrib, init: seq<Index>, ix: Index, st: Dedup)
    requires AllReadable(a, init) && IndexReadable(a, ix) && DedupGood(a, init, st)
    ensures AllReadable(a, init + [ix]) && DedupGood(a, init + [ix], DedupStep(a, st, ix))
  {
    ReadableAppend(a, init, ix);
    if ix in st.unique {
      DedupStepSeen(a, init, ix, st);
    } else {
      DedupStepNew(a, init, ix, st);
    }
  }

  lemma ReadableAppend(a: Attrib, init: seq<Index>, ix: Index)
    requires AllReadable(a, init) && IndexReadable(a, ix)
    ensures AllReadable(a, init + [ix])
  {
    var ixs := init + [ix];
    forall j | 0 <= j < |ixs| ensures IndexReadable(a, ixs[j]) {
      if j < |init| {
        assert ixs[j] == init[j];
      }
    }
  }

  /** A corner seen before reuses its vertex. */
  lemma DedupStepSeen(a: Attrib, init: seq<Index>, ix: Index, st: Dedup)
    requires AllReadable(a, init) && IndexReadable(a, ix) && AllReadable(a, init + [ix])
    requires DedupGood(a, init, st) && ix in st.unique
    ensures DedupGood(a, init + [ix], DedupStep(a, st, ix))
  {
    var ixs := init + [ix];
    var r := DedupStep(a, st, ix);
    assert forall k :: k in ixs <==> k in init || k == ix;
    forall j | 0 <= j < |ixs| ensures r.indices[j] == r.unique[ixs[j]] {
      if j < |init| {
        assert ixs[j] == init[j];
      }
    }
  }

  /** A new corner gets a fresh vertex at the end. */
  lemma DedupStepNew(a: Attrib, init: seq<Index>, ix: Index, st: Dedup)
    requires AllReadable(a, init) && IndexReadable(a, ix) && AllReadable(a, init + [ix])
    requires DedupGood(a, init, st) && ix !in st.unique
    ensures DedupGood(a, init + [ix], DedupStep(a, st, ix))
  {
    var ixs := init + [ix];
    var r := DedupStep(a, st, ix);
    var n := |st.vertices|;
    assert forall k :: k in ixs <==> k in init || k == ix;
    assert |r.unique| == |st.unique| + 1;
    forall k | k in r.unique ensures r.unique[k] < |r.vertices| && r.vertices[r.unique[k]] == VertexOf(a, k) {
      if k != ix {
        assert r.unique[k] == st.unique[k] < n;
      }
    }
    FreshSlotInjective(st.unique, ix, n);
    forall j | 0 <= j < |ixs| ensures r.indices[j] == r.unique[ixs[j]] {
      if j < |init| {
        assert ixs[j] == init[j];
        assert init[j] in st.unique;
      }
    }
  }

  /** Giving a new key the slot n, above every slot in use, keeps slots distinct. */
  lemma FreshSlotInjective(u: map<Index, nat>, ix: Index, n: nat)
    requires ix !in u
    requires forall k :: k in u ==> u[k] < n
    requires SlotsDistinct(u)
    ensures SlotsDistinct(u[ix := n])
  {
    var v := u[ix := n];
    forall k1, k2 | k1 in v && k2 in v && k1 != k2 ensures v[k1] != v[k2] {
      if k1 != ix && k2 != ix {
        assert v[k1] == u[k1] && v[k2] == u[k2];
      } else if k1 == ix {
        assert u[k2] < n;
      } else {
        assert u[k1] < n;
      }
    }
  }

  /** The dedup contract: one index per corner, each naming a vertex that
      holds that corner's data; two corners share an index exactly when they
      share the key; one vertex per distinct key. */
  lemma DedupCorrect(a: Attrib, ixs: seq<Index>)
    requires AllReadable(a, ixs)
    ensures var r := DedupRead(a, ixs);
      |r.indices| == |ixs| &&
      (forall j :: 0 <= j < |ixs| ==> r.indices[j] < |r.vertices| && r.vertices[r.indices[j]] == VertexOf(a, ixs[j])) &&
      (forall j, k :: 0 <= j < |ixs| && 0 <= k < |ixs| ==> (ixs[j] == ixs[k] <==> r.indices[j] == r.indices[k])) &&
      r.unique.Keys == (set j | 0 <= j < |ixs| :: ixs[j]) &&
      |r.vertices| == |r.unique.Keys|
  {
    DedupReadGood(a, ixs);
    var r := DedupRead(a, ixs);
    forall j | 0 <= j < |ixs| ensures r.indices[j] < |r.vertices| && r.vertices[r.indices[j]] == VertexOf(a, ixs[j]) {
      assert ixs[j] in r.unique;
    }
    SharedIndexIffSharedKey(a, ixs, r);
    KeysAreCorners(a, ixs, r);
  }

  lemma SharedIndexIffSharedKey(a: Attrib, ixs: seq<Index>, r: Dedup)
    requires AllReadable(a, ixs) && DedupGood(a, ixs, r)
    ensures forall j, k :: 0 <= j < |ixs| && 0 <= k < |ixs| ==> (ixs[j] == ixs[k] <==> r.indices[j] == r.indices[k])
  {
    forall j, k | 0 <= j < |ixs| && 0 <= k < |ixs| ensures ixs[j] == ixs[k] <==> r.indices[j] == r.indices[k] {
      assert ixs[j] in r.unique && ixs[k] in r.unique;
    }
  }

  lemma KeysAreCorners(a: Attrib, ixs: seq<Index>, r: Dedup)
    requires AllReadable(a, ixs) && DedupGood(a, ixs, r)
    ensures r.unique.Keys == set j | 0 <= j < |ixs| :: ixs[j]
  {
    forall k | k in r.unique ensures k in set j | 0 <= j < |ixs| :: ixs[j] {
      assert k in ixs;
      var j :| 0 <= j < |ixs| && ixs[j] == k;
    }
  }

  /** The material index of a shape: its first face's material id when that exists and is not negative, else -1. */
  function MaterialIndexOf(ids: seq<int>): (r: int)
    ensures r >= -1
    ensures r >= 0 <==> |ids| > 0 && ids[0] >= 0
    ensures r >= 0 ==> r == ids[0]
  {
    if |ids| > 0 && ids[0] >= 0 then ids[0] else -1
  }

  /** ProcessMesh reads whole triangles, and every non-negative index is in range. */
  predicate ShapeReadable(a: Attrib, s: Shape) {
    |s.indices| % 3 == 0 && AllReadable(a, s.indices)
  }

  function MeshOf(a: Attrib, s: Shape): (m: Mesh)
    requires ShapeReadable(a, s)
    ensures |m.indices| == |s.indices| && m.materialIndex == MaterialIndexOf(s.materialIds)
    ensures forall j :: 0 <= j < |s.indices| ==>
      m.indices[j] < |m.vertices| && m.vertices[m.indices[j]] == VertexOf(a, s.indices[j])
    ensures forall j, k :: 0 <= j < |s.indices| && 0 <= k < |s.indices| ==>
      (s.indices[j] == s.indices[k] <==> m.indices[j] == m.indices[k])
  {
    DedupCorrect(a, s.indices);
    var d := DedupRead(a, s.indices);
    Mesh(d.vertices, d.indices, MaterialIndexOf(s.materialIds))
  }

  function MeshesOf(a: Attrib, shapes: seq<Shape>): (ms: seq<Mesh>)
    requires forall j :: 0 <= j < |shapes| ==> ShapeReadable(a, shapes[j])
    ensures |ms| == |shapes|
    ensures forall j :: 0 <= j < |shapes| ==> ms[j] == MeshOf(a, shapes[j])
  {
    if |shapes| == 0 then [] else MeshesOf(a, shapes[..|shapes| - 1]) + [MeshOf(a, shapes[|shapes| - 1])]
  }

  /** LoadModel gives up after Cleanup when tinyobj reports an error, fails, or finds no positions. */
  predicate Loadable(obj: TinyObj) {
    obj.err == "" && obj.ret && |obj.attrib.vertices| > 0
  }

  // ---------------------------------------------------------------- track

  /** The track's edges: x and z stay within [-20, 20]. */
  const BOUNDARY: real := 20.0

  const PLUS_X: Vec3 := Vec3(1.0, 0.0, 0.0)
  const MINUS_X: Vec3 := Vec3(-1.0, 0.0, 0.0)
  const PLUS_Z: Vec3 := Vec3(0.0, 0.0, 1.0)
  const MINUS_Z: Vec3 := Vec3(0.0, 0.0, -1.0)

  /** glm::two_pi */
  const TWO_PI: real := 2.0 * PI

  /** The position, heading and angles that update changes. */
  datatype Motion = Motion(position: Vec3, direction: Vec3, targetAngle: real, currentAngle: real, modelMatrix: Mat)

  /** The camera-following settings and the camera state last handed to the model. */
  datatype Follow = Follow(followCamera: bool, cameraOffset: Vec3, followCameraRotation: bool,
    rotationOffset: real, cameraPos: Vec3, viewMatrix: Mat)

  /** The first three entries of the view matrix's rows: right, up and back (the negated forward). */
  datatype ViewRows = ViewRows(right: Vec3, up: Vec3, back: Vec3)

  /** updateCameraFollow: when following, the model sits at the camera
      position plus the offset along the camera's right, up and forward axes,
      and takes the camera's yaw plus the offset when rotation is followed. */
  function FollowStep(m: Math, rowsOf: Mat -> ViewRows, f: Follow, s: Motion): (r: Motion)
    ensures !f.followCamera ==> r == s
    ensures r.direction == s.direction && r.targetAngle == s.targetAngle
    ensures f.followCamera && !f.followCameraRotation ==> r.currentAngle == s.currentAngle
  {
    if !f.followCamera then s
    else
      var rows := rowsOf(f.viewMatrix);
      var forward := Scale(rows.back, -1.0);
      var target := Add(Add(Add(f.cameraPos, Scale(rows.right, f.cameraOffset.x)),
        Scale(rows.up, f.cameraOffset.y)), Scale(forward, f.cameraOffset.z));
      var angle := if f.followCameraRotation then m.atan2(forward.x, forward.z) + f.rotationOffset else s.currentAngle;
      s.(position := target, currentAngle := angle, modelMatrix := Product(Translate(target), Rotate(angle, AxisY)))
  }

  /** The turn update makes after moving: leaving an edge while heading out of
      the square snaps back onto the edge and turns right; the first matching
      edge in the order +x, -z, -x, +z wins. */
  function Turn(p: Vec3, d: Vec3, target: real): (r: (Vec3, Vec3, real))
    ensures !Leaving(p, d) ==> r == (p, d, target)
    ensures Leaving(p, d) ==> Heading(r.1) && r.2 == HeadingAngle(r.1) && r.0.y == p.y
    ensures Leaving(p, d) ==>
      (Abs(r.0.x) == BOUNDARY && r.0.z == p.z && r.1.x == 0.0) ||
      (Abs(r.0.z) == BOUNDARY && r.0.x == p.x && r.1.z == 0.0)
    ensures Heading(d) && Leaving(p, d) ==> r.1 == NextHeading(d)
  {
    if p.x > BOUNDARY && d.x > 0.0 then (p.(x := BOUNDARY), MINUS_Z, Radians(180.0))
    else if p.z < -BOUNDARY && d.z < 0.0 then (p.(z := -BOUNDARY), MINUS_X, Radians(270.0))
    else if p.x < -BOUNDARY && d.x < 0.0 then (p.(x := -BOUNDARY), PLUS_Z, Radians(0.0))
    else if p.z > BOUNDARY && d.z > 0.0 then (p.(z := BOUNDARY), PLUS_X, Radians(90.0))
    else (p, d, target)
  }

  /** The inner loop of ProcessMesh: the three corners of the triangle
      starting at corner f, each reusing the vertex of a key seen before. */
  method ProcessTriangle(attrib: Attrib, ixs: seq<Index>, f: nat,
                         vertices0: seq<Vertex>, indices0: seq<nat>, unique0: map<Index, nat>)
      returns (vertices: seq<Vertex>, indices: seq<nat>, uniqueVertices: map<Index, nat>)
    requires f + 3 <= |ixs| && AllReadable(attrib, ixs)
    requires Dedup(vertices0, indices0, unique0) == DedupRead(attrib, ixs[..f])
    ensures Dedup(vertices, indices, uniqueVertices) == DedupRead(attrib, ixs[..f + 3])
  {
    vertices, indices, uniqueVertices := vertices0, indices0, unique0;
    var i := 0;
    while i < 3
      invariant 0 <= i <= 3
      invariant Dedup(vertices, indices, uniqueVertices) == DedupRead(attrib, ixs[..f + i])
    {
      var index := ixs[f + i];
      assert ixs[..f + i + 1][..f + i] == ixs[..f + i];
      if index !in uniqueVertices {
        uniqueVertices := uniqueVertices[index := |vertices|];
        vertices := vertices + [VertexOf(attrib, index)];
      }
      indices := indices + [uniqueVertices[index]];
      i := i + 1;
    }
  }

  /** Beyond an edge of the square and still heading out through it. */
  predicate Leaving(p: Vec3, d: Vec3) {
    (p.x > BOUNDARY && d.x > 0.0) || (p.z < -BOUNDARY && d.z < 0.0) ||
    (p.x < -BOUNDARY && d.x < 0.0) || (p.z > BOUNDARY && d.z > 0.0)
  }

  /** The difference wrapped once by 2π towards [-π, π]. */
  function WrapOnce(diff: real): (w: real)
    ensures w == diff || w == diff - TWO_PI || w == diff + TWO_PI
    ensures -3.0 * PI <= diff <= 3.0 * PI ==> -PI <= w <= PI
  {
    var d := if diff > PI then diff - TWO_PI else diff;
    if d < -PI then d + TWO_PI else d
  }

  function Abs(x: real): real { if x < 0.0 then -x else x }

  /** One turn towards the target: snap to it when the wrapped difference is
      below maxStep, otherwise move by maxStep in the wrapped direction. */
  function AngleStep(target: real, current: real, maxStep: real): (r: real)
    ensures Abs(WrapOnce(target - current)) < maxStep ==> r == target
    ensures r == target || r == current || r == current + maxStep || r == current - maxStep
  {
    var diff := WrapOnce(target - current);
    if Abs(diff) < maxStep then target else current + SignedStep(diff, maxStep)
  }

  /** A move of maxStep in the direction of diff: glm::sign(diff) * maxStep,
      which is maxStep, -maxStep or 0. */
  function SignedStep(diff: real, maxStep: real): real {
    if diff > 0.0 then maxStep else if diff < 0.0 then -maxStep else 0.0
  }

  /** update's track part, run only when auto-rotate is on. */
  function TrackStep(s: Motion, speed: real, rotationSpeed: real, dt: real): (r: Motion)
    ensures r.modelMatrix == Product(Translate(r.position), Rotate(r.currentAngle, AxisY))
  {
    var moved := Add(s.position, Scale(Scale(s.direction, speed), dt));
    var (p, d, target) := Turn(moved, s.direction, s.targetAngle);
    var angle := AngleStep(target, s.currentAngle, rotationSpeed * dt);
    Motion(p, d, target, angle, Product(Translate(p), Rotate(angle, AxisY)))
  }

  /** update: follow the camera, then, with auto-rotate on, move along the track. */
  function UpdateMotion(m: Math, rowsOf: Mat -> ViewRows, f: Follow, autoRotate: bool,
                        speed: real, rotationSpeed: real, s: Motion, dt: real): (r: Motion)
    ensures !autoRotate ==> r == FollowStep(m, rowsOf, f, s)
    ensures !autoRotate && !f.followCamera ==> r == s
  {
    var followed := FollowStep(m, rowsOf, f, s);
    if autoRotate then TrackStep(followed, speed, rotationSpeed, dt) else followed
  }

  /** The four headings of the track. */
  predicate Heading(d: Vec3) {
    d == PLUS_X || d == MINUS_Z || d == MINUS_X || d == PLUS_Z
  }

  /** The right turn: +X, -Z, -X, +Z, and back to +X. */
  function NextHeading(d: Vec3): Vec3 {
    if d == PLUS_X then MINUS_Z else if d == MINUS_Z then MINUS_X else if d == MINUS_X then PLUS_Z else PLUS_X
  }

  /** The target angle update sets when turning onto a heading. */
  function HeadingAngle(d: Vec3): real {
    if d == MINUS_Z then Radians(180.0) else if d == MINUS_X then Radians(270.0)
    else if d == PLUS_Z then Radians(0.0) else Radians(90.0)
  }

  predicate OnTrack(p: Vec3, d: Vec3) {
    -BOUNDARY <= p.x <= BOUNDARY && -BOUNDARY <= p.z <= BOUNDARY && Heading(d)
  }

  /** A model on the track stays on it: moving forward by a non-negative
      step either keeps the heading and target, or stops on the edge it
      crossed, turns right, and aims at the new heading's angle. */
  lemma TrackStaysOnTrack(s: Motion, speed: real, rotationSpeed: real, dt: real)
    requires OnTrack(s.position, s.direction) && speed * dt >= 0.0
    ensures var r := TrackStep(s, speed, rotationSpeed, dt);
      OnTrack(r.position, r.direction) && r.position.y == s.position.y &&
      ((r.direction == s.direction && r.targetAngle == s.targetAngle) ||
       (r.direction == NextHeading(s.direction) && r.targetAngle == HeadingAngle(r.direction)))
  {
    var step := Scale(Scale(s.direction, speed), dt);
    var k := speed * dt;
    if s.direction == PLUS_X {
      assert step == Vec3(k, 0.0, 0.0);
    } else if s.direction == MINUS_Z {
      assert step == Vec3(0.0, 0.0, -k);
    } else if s.direction == MINUS_X {
      assert step == Vec3(-k, 0.0, 0.0);
    } else {
      assert step == Vec3(0.0, 0.0, k);
    }
  }

  /** Four turns bring the heading back to where it started. */
  lemma FourTurnsCloseTheLoop(d: Vec3)
    requires Heading(d)
    ensures NextHeading(NextHeading(NextHeading(NextHeading(d)))) == d
    ensures Heading(NextHeading(d)) && NextHeading(d) != d
  {
  }

  /** Within half a turn of the target and with a non-negative step, one
      angle step never overshoots: it lands on the target or comes exactly
      maxStep closer, and it moves by at most maxStep. */
  lemma AngleStepApproaches(target: real, current: real, maxStep: real)
    requires -PI <= target - current <= PI && maxStep >= 0.0
    ensures var r := AngleStep(target, current, maxStep);
      Abs(r - current) <= maxStep &&
      (r == target || Abs(target - r) == Abs(target - current) - maxStep)
  {
  }

  /** n steps of AngleStep. */
  function AngleSteps(target: real, current: real, maxStep: real, n: nat): real
    decreases n
  {
    if n == 0 then current else AngleSteps(target, AngleStep(target, current, maxStep), maxStep, n - 1)
  }

  /** With a positive step the model reaches the target angle once n steps
      cover the distance, and stays there. */
  lemma {:induction false} AngleStepsReachTarget(target: real, current: real, maxStep: real, n: nat)
    requires -PI <= target - current <= PI && maxStep > 0.0
    requires (n as real) * maxStep > Abs(target - current)
    ensures AngleSteps(target, current, maxStep, n) == target
    decreases n
  {
    var r := AngleStep(target, current, maxStep);
    AngleStepApproaches(target, current, maxStep);
    if r == target {
      StaysAtTarget(target, maxStep, n - 1);
    } else {
      assert Abs(target - r) == Abs(target - current) - maxStep;
      assert ((n - 1) as real) * maxStep == (n as real) * maxStep - maxStep;
      AngleStepsReachTarget(target, r, maxStep, n - 1);
    }
  }

  lemma {:induction false} StaysAtTarget(target: real, maxStep: real, n: nat)
    requires maxStep > 0.0
    ensures AngleSteps(target, target, maxStep, n) == target
  {
    if n > 0 {
      StaysAtTarget(target, maxStep, n - 1);
    }
  }

  // ---------------------------------------------------------------- the class

  class Model {
    var meshes: seq<Mesh>
    var materials: seq<Material>
    var directory: string

    var position: Vec3
    var direction: Vec3
    var speed: real
    var targetAngle: real
    var currentAngle: real
    var rotationSpeed: real
    var autoRotate: bool
    var modelMatrix: Mat

    var followCamera: bool
    var cameraOffset: Vec3
    var followCameraRotation: bool
    var rotationOffset: real
    var cameraPos: Vec3
    var viewMatrix: Mat

    /** An empty model; the track settings are given, auto-rotate and camera following are off. */
    constructor (position: Vec3, direction: Vec3, speed: real, rotationSpeed: real)
      ensures meshes == [] && materials == [] && directory == ""
      ensures this.position == position && this.direction == direction
      ensures this.speed == speed && this.rotationSpeed == rotationSpeed
      ensures !autoRotate && !followCamera
    {
      meshes, materials, directory := [], [], "";
      this.position, this.direction, this.speed, this.rotationSpeed := position, direction, speed, rotationSpeed;
      targetAngle, currentAngle, autoRotate, modelMatrix := 0.0, 0.0, false, Identity;
      followCamera, cameraOffset, followCameraRotation, rotationOffset := false, Zero3, true, 0.0;
      cameraPos, viewMatrix := Zero3, Identity;
    }

    function GetMotion(): Motion
      reads this
    {
      Motion(position, direction, targetAngle, currentAngle, modelMatrix)
    }

    function GetFollow(): Follow
      reads this
    {
      Follow(followCamera, cameraOffset, followCameraRotation, rotationOffset, cameraPos, viewMatrix)
    }

    /** LoadModel: clears the model and records the directory whatever the
        outcome; succeeds exactly when tinyobj loaded positions without
        error, and then holds one material per tinyobj material and one mesh
        per shape, in order. */
    method LoadModel(filepath: string, obj: TinyObj, loadTexture: string -> nat) returns (ok: bool)
      requires Loadable(obj) ==> forall j :: 0 <= j < |obj.shapes| ==> ShapeReadable(obj.attrib, obj.shapes[j])
      modifies this`meshes, this`materials, this`directory
      ensures directory == GetDirectory(filepath)
      ensures ok <==> Loadable(obj)
      ensures !ok ==> meshes == [] && materials == []
      ensures ok ==> (materials == MaterialsOf(directory, obj.materials, loadTexture)
        && meshes == MeshesOf(obj.attrib, obj.shapes))
    {
      Cleanup();
      directory := GetDirectory(filepath);
      if obj.err != "" {
        return false;
      }
      if !obj.ret {
        return false;
      }
      if |obj.attrib.vertices| == 0 {
        return false;
      }
      ProcessMaterials(obj.materials, loadTexture);
      ProcessShapes(obj.attrib, obj.shapes);
      return true;
    }

    /** LoadModel's loop over the shapes: one mesh each, in order. */
    method ProcessShapes(attrib: Attrib, shapes: seq<Shape>)
      requires forall j :: 0 <= j < |shapes| ==> ShapeReadable(attrib, shapes[j])
      modifies this`meshes
      ensures meshes == old(meshes) + MeshesOf(attrib, shapes)
    {
      var j := 0;
      while j < |shapes|
        invariant 0 <= j <= |shapes|
        invariant meshes == old(meshes) + MeshesOf(attrib, shapes[..j])
      {
        assert shapes[..j + 1][..j] == shapes[..j];
        ProcessMesh(attrib, shapes[j]);
        j := j + 1;
      }
      assert shapes[..j] == shapes;
    }

    /** ProcessMaterials: appends one material per tinyobj material, in order. */
    method ProcessMaterials(objMaterials: seq<ObjMaterial>, loadTexture: string -> nat)
      modifies this`materials
      ensures materials == old(materials) + MaterialsOf(directory, objMaterials, loadTexture)
    {
      var j := 0;
      while j < |objMaterials|
        invariant 0 <= j <= |objMaterials|
        invariant materials == old(materials) + MaterialsOf(directory, objMaterials[..j], loadTexture)
      {
        assert objMaterials[..j + 1][..j] == objMaterials[..j];
        var mat := ConvertMaterial(directory, objMaterials[j], loadTexture);
        materials := materials + [mat];
        j := j + 1;
      }
      assert objMaterials[..j] == objMaterials;
    }

    /** One pass of ProcessMaterials' loop: the alpha fallback and the three
        texture loads for one tinyobj material. */
    static method ConvertMaterial(directory: string, objMat: ObjMaterial, loadTexture: string -> nat)
      returns (mat: Material)
      ensures mat == MaterialOf(directory, objMat, loadTexture)
    {
      var alpha := objMat.dissolve;
      if alpha <= 0.0 {
        alpha := 1.0;
      }
      var diffusePath, normalPath, specularPath := "", "", "";
      var diffuseTexture, normalTexture, specularTexture := 0, 0, 0;
      if objMat.diffuseTexname != "" {
        diffusePath := directory + "/" + objMat.diffuseTexname;
        diffuseTexture := loadTexture(diffusePath);
      }
      if objMat.normalTexname != "" {
        normalPath := directory + "/" + objMat.normalTexname;
        normalTexture := loadTexture(normalPath);
      }
      if objMat.specularTexname != "" {
        specularPath := directory + "/" + objMat.specularTexname;
        specularTexture := loadTexture(specularPath);
      }
      mat := Material(objMat.name, objMat.ambient, objMat.diffuse, objMat.specular, objMat.shininess, alpha,
        diffuseTexture, normalTexture, specularTexture, 0, diffusePath, normalPath, specularPath);
    }

    /** ProcessMesh: walks the corners a triangle at a time, reusing the
        vertex of a key seen before, and appends the mesh. */
    method ProcessMesh(attrib: Attrib, shape: Shape)
      requires ShapeReadable(attrib, shape)
      modifies this`meshes
      ensures meshes == old(meshes) + [MeshOf(attrib, shape)]
    {
      var ixs := shape.indices;
      var vertices: seq<Vertex> := [];
      var indices: seq<nat> := [];
      var uniqueVertices: map<Index, nat> := map[];
      var f := 0;
      while f < |ixs|
        invariant 0 <= f <= |ixs| && f % 3 == 0
        invariant Dedup(vertices, indices, uniqueVertices) == DedupRead(attrib, ixs[..f])
        invariant meshes == old(meshes)
      {
        vertices, indices, uniqueVertices := ProcessTriangle(attrib, ixs, f, vertices, indices, uniqueVertices);
        f := f + 3;
      }
      assert ixs[..f] == ixs;
      meshes := meshes + [Mesh(vertices, indices, MaterialIndexOf(shape.materialIds))];
    }

    /** Cleanup: no meshes and no materials remain. */
    method Cleanup()
      modifies this`meshes, this`materials
      ensures meshes == [] && materials == []
    {
      meshes := [];
      materials := [];
    }

    /** GetMaterial: the material at index, or out_of_range past the end. */
    function GetMaterial(index: nat): (r: Result<Material, string>)
      reads this
      ensures r.Success? <==> index < |materials|
      ensures r.Success? ==> r.value == materials[index]
      ensures r.Failure? ==> r.error == "Material index out of range"
    {
      if index >= |materials| then Failure("Material index out of range") else Success(materials[index])
    }

    function GetMaterialCount(): nat
      reads this
    {
      |materials|
    }

    function GetMeshCount(): nat
      reads this
    {
      |meshes|
    }

    /** IsLoaded: at least one mesh. */
    function IsLoaded(): (b: bool)
      reads this
      ensures b <==> GetMeshCount() > 0
    {
      |meshes| != 0
    }

    method SetAutoRotate()
      modifies this`autoRotate
      ensures autoRotate
    {
      if !autoRotate {
        autoRotate := true;
      }
    }

    method SetFollowCamera(follow: bool, offset: Vec3, followRotation: bool, rotationOffset: real)
      modifies this`followCamera, this`cameraOffset, this`followCameraRotation, this`rotationOffset
      ensures followCamera == follow && cameraOffset == offset
      ensures followCameraRotation == followRotation && this.rotationOffset == rotationOffset
    {
      followCamera, cameraOffset, followCameraRotation := follow, offset, followRotation;
      this.rotationOffset := rotationOffset;
    }

    method SetCameraPos(pos: Vec3)
      modifies this`cameraPos
      ensures cameraPos == pos
    {
      cameraPos := pos;
    }

    method SetViewMatrix(view: Mat)
      modifies this`viewMatrix
      ensures viewMatrix == view
    {
      viewMatrix := view;
    }

    /** updateCameraFollow */
    method UpdateCameraFollow(m: Math, rowsOf: Mat -> ViewRows)
      modifies this`position, this`currentAngle, this`modelMatrix
      ensures GetMotion() == FollowStep(m, rowsOf, GetFollow(), old(GetMotion()))
    {
      if !followCamera {
        return;
      }
      var rows := rowsOf(viewMatrix);
      var cameraForward := Scale(rows.back, -1.0);
      var targetPosition := Add(Add(Add(cameraPos, Scale(rows.right, cameraOffset.x)),
        Scale(rows.up, cameraOffset.y)), Scale(cameraForward, cameraOffset.z));
      position := targetPosition;
      var angle := currentAngle;
      if followCameraRotation {
        angle := m.atan2(cameraForward.x, cameraForward.z) + rotationOffset;
      }
      modelMatrix := Product(Translate(position), Rotate(angle, AxisY));
      if followCameraRotation {
        currentAngle := angle;
      }
    }

    /** update: the camera-following step, then the track step when auto-rotate is on. */
    method Update(m: Math, rowsOf: Mat -> ViewRows, dt: real)
      modifies this`position, this`direction, this`targetAngle, this`currentAngle, this`modelMatrix
      ensures GetMotion() == UpdateMotion(m, rowsOf, GetFollow(), autoRotate, speed, rotationSpeed, old(GetMotion()), dt)
    {
      UpdateCameraFollow(m, rowsOf);
      if autoRotate {
        MoveAlongTrack(dt);
      }
    }

    /** The moving and turning part of update. */
    method MoveAlongTrack(dt: real)
      modifies this`position, this`direction, this`targetAngle, this`currentAngle, this`modelMatrix
      ensures GetMotion() == TrackStep(old(GetMotion()), speed, rotationSpeed, dt)
    {
      position := Add(position, Scale(Scale(direction, speed), dt));
      if position.x > BOUNDARY && direction.x > 0.0 {
        position := position.(x := BOUNDARY);
        direction := MINUS_Z;
        targetAngle := Radians(180.0);
      } else if position.z < -BOUNDARY && direction.z < 0.0 {
        position := position.(z := -BOUNDARY);
        direction := MINUS_X;
        targetAngle := Radians(270.0);
      } else if position.x < -BOUNDARY && direction.x < 0.0 {
        position := position.(x := -BOUNDARY);
        direction := PLUS_Z;
        targetAngle := Radians(0.0);
      } else if position.z > BOUNDARY && direction.z > 0.0 {
        position := position.(z := BOUNDARY);
        direction := PLUS_X;
        targetAngle := Radians(90.0);
      }
      TurnTowardsTarget(dt);
    }

    /** The angle part of update: wrap the difference once, then snap or step. */
    method TurnTowardsTarget(dt: real)
      modifies this`currentAngle, this`modelMatrix
      ensures currentAngle == AngleStep(targetAngle, old(currentAngle), rotationSpeed * dt)
      ensures modelMatrix == Product(Translate(position), Rotate(currentAngle, AxisY))
    {
      var angleDiff := targetAngle - currentAngle;
      if angleDiff > PI {
        angleDiff := angleDiff - TWO_PI;
      }
      if angleDiff < -PI {
        angleDiff := angleDiff + TWO_PI;
      }
      var maxStep := rotationSpeed * dt;
      if Abs(angleDiff) < maxStep {
        currentAngle := targetAngle;
      } else {
        currentAngle := currentAngle + SignedStep(angleDiff, maxStep);
      }
      modelMatrix := Product(Translate(position), Rotate(currentAngle, AxisY));
    }
  }
}
