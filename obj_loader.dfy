/** OBJLoader: reads a Wavefront OBJ file line by line into positions,
    normals, texture coordinates and triangular faces, following `usemtl` for
    the material of each face and `mtllib` for the material library. */
module ObjLoader {
  import opened Vectors
  import opened Wrappers
  import opened Text
  import opened Numbers
  import opened MtlLoader

  datatype TexCoord = TexCoord(u: real, v: real)

  /** Three indices, one per corner of a triangle. */
  datatype Triple = Triple(i0: int, i1: int, i2: int) {
    function At(k: nat): int
      requires k < 3
    {
      if k == 0 then i0 else if k == 1 then i1 else i2
    }

    function With(k: nat, x: int): (r: Triple)
      requires k < 3
      ensures r.At(k) == x && forall j :: 0 <= j < 3 && j != k ==> r.At(j) == At(j)
    {
      if k == 0 then this.(i0 := x) else if k == 1 then this.(i1 := x) else this.(i2 := x)
    }
  }

  /** Zero-based position, texture-coordinate and normal indices; -1 when absent. */
  datatype Face = Face(v: Triple, vt: Triple, vn: Triple, materialName: string)

  const NO_INDEX: Triple := Triple(-1, -1, -1)

  /** Face(): every index -1 and no material. */
  function NewFace(): (f: Face)
    ensures forall k :: 0 <= k < 3 ==> f.v.At(k) == -1 && f.vt.At(k) == -1 && f.vn.At(k) == -1
    ensures f.materialName == ""
  {
    Face(NO_INDEX, NO_INDEX, NO_INDEX, "")
  }

  /** The '/'-separated fields of the k-th word of a face line. */
  function Fields(ts: seq<string>, k: nat): seq<string>
    requires k < |ts|
  {
    GetlineFields(ts[k], '/')
  }

  /** Every field parseFace hands to std::stoi starts with a number. */
  predicate FaceDataReadable(faceData: string) {
    var ts := Tokens(faceData);
    forall k, c :: 0 <= k < 3 && k < |ts| && 0 <= c < 3 && c < |Fields(ts, k)| && Fields(ts, k)[c] != "" ==>
      HasIntPrefix(Fields(ts, k)[c])
  }

  /** The index parseFace stores for field c of corner k: the 1-based number
      minus one, or -1 when the word or the field is missing or empty. */
  function IndexOf(ts: seq<string>, k: nat, c: nat): int
    requires k < 3 && c < 3
    requires forall k', c' :: 0 <= k' < 3 && k' < |ts| && 0 <= c' < 3 && c' < |Fields(ts, k')| && Fields(ts, k')[c'] != "" ==>
      HasIntPrefix(Fields(ts, k')[c'])
  {
    if k < |ts| && c < |Fields(ts, k)| && Fields(ts, k)[c] != "" then IntPrefixValue(Fields(ts, k)[c]) - 1 else -1
  }

  /** parseFace's result on the text after "f": at most three words and at
      most three fields each are read; the face takes the current material. */
  function FaceOf(faceData: string, material: string): (f: Face)
    requires FaceDataReadable(faceData)
    ensures f.materialName == material
  {
    var ts := Tokens(faceData);
    Face(Triple(IndexOf(ts, 0, 0), IndexOf(ts, 1, 0), IndexOf(ts, 2, 0)),
         Triple(IndexOf(ts, 0, 1), IndexOf(ts, 1, 1), IndexOf(ts, 2, 1)),
         Triple(IndexOf(ts, 0, 2), IndexOf(ts, 1, 2), IndexOf(ts, 2, 2)),
         material)
  }

  /** A face line with no words gives the default indices. */
  lemma EmptyFaceLine(material: string)
    ensures FaceDataReadable("") && FaceOf("", material) == NewFace().(materialName := material)
  {
  }

  /** "a//c": position a - 1, no texture coordinate, normal c - 1. */
  lemma SkippedTextureField(ts: seq<string>, k: nat)
    requires k < 3 && k < |ts|
    requires forall k', c' :: 0 <= k' < 3 && k' < |ts| && 0 <= c' < 3 && c' < |Fields(ts, k')| && Fields(ts, k')[c'] != "" ==>
      HasIntPrefix(Fields(ts, k')[c'])
    requires |Fields(ts, k)| == 3 && Fields(ts, k)[1] == "" && Fields(ts, k)[0] != "" && Fields(ts, k)[2] != ""
    ensures IndexOf(ts, k, 0) == IntPrefixValue(Fields(ts, k)[0]) - 1
    ensures IndexOf(ts, k, 1) == -1
    ensures IndexOf(ts, k, 2) == IntPrefixValue(Fields(ts, k)[2]) - 1
  {
  }

  /** The reader's state while going through the lines. */
  datatype ObjParse = ObjParse(
    vertices: seq<Vec3>, normals: seq<Vec3>, texCoords: seq<TexCoord>, faces: seq<Face>,
    currentMaterial: string,
    /** The last `mtllib` file that could be opened, if any. */
    lastMtl: Option<string>)

  predicate ObjSkipped(line: string) {
    |line| == 0 || line[0] == '#'
  }

  predicate IsFaceLine(line: string) {
    !ObjSkipped(line) && FirstToken(line) == "f"
  }

  predicate IsUseMtl(line: string) {
    !ObjSkipped(line) && FirstToken(line) == "usemtl"
  }

  /** Every `f` line can be read without std::stoi failing. */
  predicate FacesReadable(lines: seq<string>) {
    forall k :: 0 <= k < |lines| && IsFaceLine(lines[k]) ==> FaceDataReadable(AfterFirstToken(lines[k]))
  }

  function Vec3Of(vs: seq<real>): Vec3
    requires |vs| == 3
  {
    Vec3(vs[0], vs[1], vs[2])
  }

  /** One pass of loadOBJ's loop. */
  function ObjLine(fs: FileSystem, basePath: string, st: ObjParse, line: string): (r: ObjParse)
    requires IsFaceLine(line) ==> FaceDataReadable(AfterFirstToken(line))
    ensures IsFaceLine(line) ==> r == st.(faces := st.faces + [FaceOf(AfterFirstToken(line), st.currentMaterial)])
    ensures !IsFaceLine(line) ==> r.faces == st.faces
    ensures IsUseMtl(line) ==> r == st.(currentMaterial := ParseString(line))
    ensures !IsUseMtl(line) ==> r.currentMaterial == st.currentMaterial
  {
    if ObjSkipped(line) then st
    else
      var prefix := FirstToken(line);
      if prefix == "v" then st.(vertices := st.vertices + [Vec3Of(ReadReals(Args(line), 3))])
      else if prefix == "vn" then st.(normals := st.normals + [Vec3Of(ReadReals(Args(line), 3))])
      else if prefix == "vt" then
        var uv := ReadReals(Args(line), 2);
        st.(texCoords := st.texCoords + [TexCoord(uv[0], uv[1])])
      else if prefix == "f" then st.(faces := st.faces + [FaceOf(AfterFirstToken(line), st.currentMaterial)])
      else if prefix == "mtllib" then
        var path := basePath + ParseString(line);
        if path in fs then st.(lastMtl := Some(path)) else st
      else if prefix == "usemtl" then st.(currentMaterial := ParseString(line))
      else st
  }

  /** "v 1e-3 2 3" adds the vertex (0.001, 2, 3): `>> float` takes the
      exponent. */
  lemma ExponentVertexExample(fs: FileSystem, basePath: string, st: ObjParse, line: string)
    requires !ObjSkipped(line) && FirstToken(line) == "v" && Args(line) == ["1e-3", "2", "3"]
    ensures ObjLine(fs, basePath, st, line) == st.(vertices := st.vertices + [Vec3(0.001, 2.0, 3.0)])
  {
    ExponentExample();
  }

  /** The state after the loop has read the given lines, from cleared data. */
  function ObjRead(fs: FileSystem, basePath: string, lines: seq<string>): (r: ObjParse)
    requires FacesReadable(lines)
    ensures r.lastMtl.Some? ==> r.lastMtl.value in fs
  {
    if |lines| == 0 then ObjParse([], [], [], [], "", None)
    else ObjLine(fs, basePath, ObjRead(fs, basePath, lines[..|lines| - 1]), lines[|lines| - 1])
  }

  /** `usemtl` is sticky: when no `usemtl` line follows a state, every face
      read afterwards carries that state's current material. */
  lemma {:induction false} FacesTakeCurrentMaterial(fs: FileSystem, basePath: string, lines: seq<string>, n: nat)
    requires FacesReadable(lines) && n <= |lines|
    requires forall k :: n <= k < |lines| ==> !IsUseMtl(lines[k])
    ensures var before := ObjRead(fs, basePath, lines[..n]);
      var after := ObjRead(fs, basePath, lines);
      |before.faces| <= |after.faces| && after.faces[..|before.faces|] == before.faces &&
      after.currentMaterial == before.currentMaterial &&
      forall j :: |before.faces| <= j < |after.faces| ==> after.faces[j].materialName == before.currentMaterial
    decreases |lines|
  {
    if |lines| > n {
      var init := lines[..|lines| - 1];
      assert init[..n] == lines[..n];
      FacesTakeCurrentMaterial(fs, basePath, init, n);
    } else {
      assert lines[..n] == lines;
    }
  }

  /** The right-after-`usemtl X` state: the next faces carry X. */
  lemma UseMtlSetsMaterial(fs: FileSystem, basePath: string, lines: seq<string>, line: string)
    requires FacesReadable(lines + [line]) && IsUseMtl(line)
    ensures ObjRead(fs, basePath, lines + [line]).currentMaterial == ParseString(line)
  {
    assert (lines + [line])[..|lines|] == lines;
  }

  /** The interleaved per-corner layout getVertexData emits for one corner:
      the position if its index is valid (nothing otherwise), the normal or
      (0, 1, 0), the texture coordinate or (0, 0). */
  function CornerData(f: Face, k: nat, vertices: seq<Vec3>, normals: seq<Vec3>, texCoords: seq<TexCoord>): (d: seq<real>)
    requires k < 3
    ensures |d| == (if 0 <= f.v.At(k) < |vertices| then 8 else 5)
  {
    var p := f.v.At(k);
    var n := f.vn.At(k);
    var t := f.vt.At(k);
    (if 0 <= p < |vertices| then [vertices[p].x, vertices[p].y, vertices[p].z] else []) +
    (if 0 <= n < |normals| then [normals[n].x, normals[n].y, normals[n].z] else [0.0, 1.0, 0.0]) +
    (if 0 <= t < |texCoords| then [texCoords[t].u, texCoords[t].v] else [0.0, 0.0])
  }

  function FaceData(f: Face, vertices: seq<Vec3>, normals: seq<Vec3>, texCoords: seq<TexCoord>): (d: seq<real>)
    ensures 15 <= |d| <= 24
  {
    CornerData(f, 0, vertices, normals, texCoords) + CornerData(f, 1, vertices, normals, texCoords)
      + CornerData(f, 2, vertices, normals, texCoords)
  }

  /** getVertexData's output for the faces in order. */
  function VertexData(faces: seq<Face>, vertices: seq<Vec3>, normals: seq<Vec3>, texCoords: seq<TexCoord>): (d: seq<real>)
    ensures 15 * |faces| <= |d| <= 24 * |faces|
  {
    if |faces| == 0 then []
    else VertexData(faces[..|faces| - 1], vertices, normals, texCoords) + FaceData(faces[|faces| - 1], vertices, normals, texCoords)
  }

  predicate PositionsValid(faces: seq<Face>, nVertices: nat) {
    forall j, k :: 0 <= j < |faces| && 0 <= k < 3 ==> 0 <= faces[j].v.At(k) < nVertices
  }

  /** Eight floats per corner exactly when every position index is valid;
      never fewer than five. */
  lemma {:induction false} VertexDataLength(faces: seq<Face>, vertices: seq<Vec3>, normals: seq<Vec3>, texCoords: seq<TexCoord>)
    ensures 15 * |faces| <= |VertexData(faces, vertices, normals, texCoords)| <= 24 * |faces|
    ensures PositionsValid(faces, |vertices|) <==> |VertexData(faces, vertices, normals, texCoords)| == 24 * |faces|
  {
    if |faces| > 0 {
      var init := faces[..|faces| - 1];
      var f := faces[|faces| - 1];
      VertexDataLength(init, vertices, normals, texCoords);
      var _ := CornerData(f, 0, vertices, normals, texCoords);
      var _ := CornerData(f, 1, vertices, normals, texCoords);
      var _ := CornerData(f, 2, vertices, normals, texCoords);
      PositionsValidSplit(faces, |vertices|);
    }
  }

  /** The positions of all faces are valid exactly when those of all but the
      last are and the last face's three are. */
  lemma PositionsValidSplit(faces: seq<Face>, n: nat)
    requires |faces| > 0
    ensures var f := faces[|faces| - 1];
      PositionsValid(faces, n) <==>
        PositionsValid(faces[..|faces| - 1], n) && 0 <= f.v.At(0) < n && 0 <= f.v.At(1) < n && 0 <= f.v.At(2) < n
  {
    var init := faces[..|faces| - 1];
    if PositionsValid(faces, n) {
      forall j, k | 0 <= j < |init| && 0 <= k < 3 ensures 0 <= init[j].v.At(k) < n {
        assert init[j] == faces[j];
      }
    }
    var f := faces[|faces| - 1];
    if PositionsValid(init, n) && 0 <= f.v.At(0) < n && 0 <= f.v.At(1) < n && 0 <= f.v.At(2) < n {
      forall j, k | 0 <= j < |faces| && 0 <= k < 3 ensures 0 <= faces[j].v.At(k) < n {
        if j < |init| {
          assert init[j] == faces[j];
        }
      }
    }
  }

  /** The group a face is listed under: its material, or "default" when it has none. */
  function GroupName(f: Face): (g: string)
    ensures g != ""
  {
    if f.materialName == "" then "default" else f.materialName
  }

  /** The faces of group g, in file order. */
  function FacesIn(faces: seq<Face>, g: string): (r: seq<Face>)
    ensures |r| <= |faces|
    ensures forall j :: 0 <= j < |r| ==> GroupName(r[j]) == g
  {
    if |faces| == 0 then []
    else FacesIn(faces[..|faces| - 1], g) + (if GroupName(faces[|faces| - 1]) == g then [faces[|faces| - 1]] else [])
  }

  /** getFacesByMaterial's map: each face appended to the list of its group. */
  function Grouped(faces: seq<Face>): (m: map<string, seq<Face>>)
    ensures forall g :: g in m ==> |m[g]| > 0 && forall k :: 0 <= k < |m[g]| ==> GroupName(m[g][k]) == g
  {
    if |faces| == 0 then map[]
    else
      var m := Grouped(faces[..|faces| - 1]);
      var f := faces[|faces| - 1];
      m[GroupName(f) := (if GroupName(f) in m then m[GroupName(f)] else []) + [f]]
  }

  /** One entry per group name in use, holding exactly that group's faces in file order. */
  lemma {:induction false} GroupedIsFiltering(faces: seq<Face>)
    ensures forall g :: g in Grouped(faces) <==> exists j :: 0 <= j < |faces| && GroupName(faces[j]) == g
    ensures forall g :: g in Grouped(faces) ==> Grouped(faces)[g] == FacesIn(faces, g)
  {
    if |faces| > 0 {
      var init := faces[..|faces| - 1];
      var f := faces[|faces| - 1];
      GroupedIsFiltering(init);
      var m := Grouped(init);
      var r := Grouped(faces);
      forall h ensures h in r <==> exists j :: 0 <= j < |faces| && GroupName(faces[j]) == h {
        if h in m && h != GroupName(f) {
          var j :| 0 <= j < |init| && GroupName(init[j]) == h;
          assert faces[j] == init[j];
        }
        if exists j :: 0 <= j < |faces| && GroupName(faces[j]) == h {
          var j :| 0 <= j < |faces| && GroupName(faces[j]) == h;
          if j < |init| {
            assert init[j] == faces[j];
          }
        }
      }
      forall h | h in r ensures r[h] == FacesIn(faces, h) {
        if h !in m {
          assert forall j :: 0 <= j < |init| ==> GroupName(init[j]) != h;
          FacesInAbsent(init, h);
        }
      }
    }
  }

  lemma {:induction false} FacesInAbsent(faces: seq<Face>, g: string)
    requires forall j :: 0 <= j < |faces| ==> GroupName(faces[j]) != g
    ensures FacesIn(faces, g) == []
  {
    if |faces| > 0 {
      FacesInAbsent(faces[..|faces| - 1], g);
    }
  }

  /** Total size of the groups named in gs. */
  function GroupSizes(faces: seq<Face>, gs: seq<string>): nat {
    if |gs| == 0 then 0 else |FacesIn(faces, gs[0])| + GroupSizes(faces, gs[1..])
  }

  /** The groups partition the faces: over any duplicate-free list of names
      that covers every group in use, the group sizes add up to |faces|. */
  lemma {:induction false} GroupSizesSum(faces: seq<Face>, gs: seq<string>)
    requires forall a, b :: 0 <= a < b < |gs| ==> gs[a] != gs[b]
    requires forall j :: 0 <= j < |faces| ==> GroupName(faces[j]) in gs
    ensures GroupSizes(faces, gs) == |faces|
  {
    if |faces| > 0 {
      var init := faces[..|faces| - 1];
      var f := faces[|faces| - 1];
      forall j | 0 <= j < |init| ensures GroupName(init[j]) in gs {
        assert init[j] == faces[j];
      }
      GroupSizesSum(init, gs);
      GroupSizesStep(init, f, gs);
      assert faces == init + [f];
    } else {
      GroupSizesEmpty(gs);
    }
  }

  lemma {:induction false} GroupSizesEmpty(gs: seq<string>)
    ensures GroupSizes([], gs) == 0
  {
    if |gs| > 0 {
      GroupSizesEmpty(gs[1..]);
    }
  }

  /** Adding one face adds one to the group sizes when its name occurs once in gs. */
  lemma {:induction false} GroupSizesStep(faces: seq<Face>, f: Face, gs: seq<string>)
    requires forall a, b :: 0 <= a < b < |gs| ==> gs[a] != gs[b]
    ensures GroupSizes(faces + [f], gs) == GroupSizes(faces, gs) + (if GroupName(f) in gs then 1 else 0)
  {
    if |gs| > 0 {
      assert (faces + [f])[..|faces|] == faces;
      GroupSizesStep(faces, f, gs[1..]);
      if GroupName(f) == gs[0] {
        assert GroupName(f) !in gs[1..];
      } else {
        assert GroupName(f) in gs ==> GroupName(f) in gs[1..];
      }
    }
  }

  class OBJLoader {
    var vertices: seq<Vec3>
    var normals: seq<Vec3>
    var texCoords: seq<TexCoord>
    var faces: seq<Face>
    var mtlLoader: MTLLoader
    var basePath: string
    var currentMaterial: string

    constructor ()
      ensures vertices == [] && normals == [] && texCoords == [] && faces == []
      ensures basePath == "" && currentMaterial == ""
      ensures fresh(mtlLoader) && mtlLoader.materials == map[] && mtlLoader.basePath == ""
    {
      vertices, normals, texCoords, faces := [], [], [], [];
      basePath, currentMaterial := "", "";
      mtlLoader := new MTLLoader();
    }

    /** parseFace: fills a fresh face from at most three words of at most
        three '/'-fields each, then tags it with the current material. */
    method ParseFace(faceData: string) returns (face: Face)
      requires FaceDataReadable(faceData)
      ensures face == FaceOf(faceData, currentMaterial)
    {
      var ts := Tokens(faceData);
      face := NewFace();
      var index := 0;
      while index < |ts| && index < 3
        invariant 0 <= index <= 3 && index <= |ts|
        invariant forall k :: 0 <= k < 3 ==>
          face.v.At(k) == (if k < index then IndexOf(ts, k, 0) else -1) &&
          face.vt.At(k) == (if k < index then IndexOf(ts, k, 1) else -1) &&
          face.vn.At(k) == (if k < index then IndexOf(ts, k, 2) else -1)
      {
        var fields := GetlineFields(ts[index], '/');
        var componentIndex := 0;
        while componentIndex < |fields| && componentIndex < 3
          invariant 0 <= componentIndex <= 3 && componentIndex <= |fields|
          invariant forall k :: 0 <= k < 3 && k != index ==>
            face.v.At(k) == (if k < index then IndexOf(ts, k, 0) else -1) &&
            face.vt.At(k) == (if k < index then IndexOf(ts, k, 1) else -1) &&
            face.vn.At(k) == (if k < index then IndexOf(ts, k, 2) else -1)
          invariant face.v.At(index) == (if 0 < componentIndex then IndexOf(ts, index, 0) else -1)
          invariant face.vt.At(index) == (if 1 < componentIndex then IndexOf(ts, index, 1) else -1)
          invariant face.vn.At(index) == (if 2 < componentIndex then IndexOf(ts, index, 2) else -1)
        {
          var component := fields[componentIndex];
          if component != "" {
            assert fields == Fields(ts, index);
            assert HasIntPrefix(Fields(ts, index)[componentIndex]);
            var value := IntPrefixValue(component) - 1;
            if componentIndex == 0 {
              face := face.(v := face.v.With(index, value));
            } else if componentIndex == 1 {
              face := face.(vt := face.vt.With(index, value));
            } else {
              face := face.(vn := face.vn.With(index, value));
            }
          }
          componentIndex := componentIndex + 1;
        }
        index := index + 1;
      }
      face := face.(materialName := currentMaterial);
      assert face.v == Triple(face.v.At(0), face.v.At(1), face.v.At(2));
      assert face.vt == Triple(face.vt.At(0), face.vt.At(1), face.vt.At(2));
      assert face.vn == Triple(face.vn.At(0), face.vn.At(1), face.vn.At(2));
    }

    /** One pass of loadOBJ's loop over `line`. `last` is the material
        library loaded last so far: a `mtllib` line that opens its file
        loads it and becomes the new `last`. */
    method ReadLine(fs: FileSystem, line: string, ghost last: Option<string>) returns (ghost last': Option<string>)
      requires IsFaceLine(line) ==> FaceDataReadable(AfterFirstToken(line))
      modifies this, mtlLoader
      ensures mtlLoader == old(mtlLoader) && basePath == old(basePath)
      ensures ObjParse(vertices, normals, texCoords, faces, currentMaterial, last')
        == ObjLine(fs, basePath, old(ObjParse(vertices, normals, texCoords, faces, currentMaterial, last)), line)
      ensures (last' == last && mtlLoader.materials == old(mtlLoader.materials) && mtlLoader.basePath == old(mtlLoader.basePath))
        || (last'.Some? && last'.value in fs && mtlLoader.materials == MtlRead(fs[last'.value]).materials
          && mtlLoader.basePath == DirectoryWithSeparator(last'.value))
    {
      last' := last;
      if |line| == 0 || line[0] == '#' {
        return;
      }
      var prefix := FirstToken(line);
      if prefix == "v" {
        var xyz := ReadReals(Args(line), 3);
        vertices := vertices + [Vec3(xyz[0], xyz[1], xyz[2])];
      } else if prefix == "vn" {
        var xyz := ReadReals(Args(line), 3);
        normals := normals + [Vec3(xyz[0], xyz[1], xyz[2])];
      } else if prefix == "vt" {
        var uv := ReadReals(Args(line), 2);
        texCoords := texCoords + [TexCoord(uv[0], uv[1])];
      } else if prefix == "f" {
        var face := ParseFace(AfterFirstToken(line));
        faces := faces + [face];
      } else if prefix == "mtllib" {
        var mtlPath := basePath + ParseString(line);
        var loaded := mtlLoader.LoadMTL(fs, mtlPath);
        if loaded {
          last' := Some(mtlPath);
        }
      } else if prefix == "usemtl" {
        currentMaterial := ParseString(line);
      }
    }

    /** loadOBJ: false, with nothing changed, when the file cannot be opened.
        Otherwise the data is cleared and re-read line by line; the material
        library is replaced only by an `mtllib` file that can be opened. */
    method LoadOBJ(fs: FileSystem, filename: string) returns (ok: bool)
      requires filename in fs ==> FacesReadable(fs[filename])
      modifies this, mtlLoader
      ensures ok <==> filename in fs
      ensures mtlLoader == old(mtlLoader)
      ensures !ok ==> (vertices == old(vertices) && normals == old(normals) && texCoords == old(texCoords)
        && faces == old(faces) && currentMaterial == old(currentMaterial) && basePath == old(basePath)
        && mtlLoader.materials == old(mtlLoader.materials) && mtlLoader.basePath == old(mtlLoader.basePath))
      ensures ok ==> (var r := ObjRead(fs, DirectoryWithSeparator(filename), fs[filename]);
        basePath == DirectoryWithSeparator(filename) &&
        vertices == r.vertices && normals == r.normals && texCoords == r.texCoords &&
        faces == r.faces && currentMaterial == r.currentMaterial &&
        (r.lastMtl.None? ==> mtlLoader.materials == old(mtlLoader.materials) && mtlLoader.basePath == old(mtlLoader.basePath)) &&
        (r.lastMtl.Some? ==> (r.lastMtl.value in fs && mtlLoader.materials == MtlRead(fs[r.lastMtl.value]).materials
          && mtlLoader.basePath == DirectoryWithSeparator(r.lastMtl.value))))
    {
      if filename !in fs {
        return false;
      }
      basePath := DirectoryWithSeparator(filename);
      vertices, normals, texCoords, faces := [], [], [], [];
      currentMaterial := "";
      var lines := fs[filename];
      ghost var lastMtl: Option<string> := None;
      var i := 0;
      while i < |lines|
        invariant 0 <= i <= |lines|
        invariant mtlLoader == old(mtlLoader) && basePath == DirectoryWithSeparator(filename)
        invariant ObjParse(vertices, normals, texCoords, faces, currentMaterial, lastMtl)
          == ObjRead(fs, basePath, lines[..i])
        invariant lastMtl.None? ==> mtlLoader.materials == old(mtlLoader.materials) && mtlLoader.basePath == old(mtlLoader.basePath)
        invariant lastMtl.Some? ==> (lastMtl.value in fs && mtlLoader.materials == MtlRead(fs[lastMtl.value]).materials
          && mtlLoader.basePath == DirectoryWithSeparator(lastMtl.value))
      {
        assert lines[..i + 1][..i] == lines[..i];
        lastMtl := ReadLine(fs, lines[i], lastMtl);
        i := i + 1;
      }
      assert lines[..i] == lines;
      return true;
    }

    /** getVertexData: the interleaved position/normal/texcoord floats of every corner. */
    method GetVertexData() returns (data: seq<real>)
      ensures data == VertexData(faces, vertices, normals, texCoords)
    {
      data := [];
      var j := 0;
      while j < |faces|
        invariant 0 <= j <= |faces|
        invariant data == VertexData(faces[..j], vertices, normals, texCoords)
      {
        var face := faces[j];
        var corners := [];
        var k := 0;
        while k < 3
          invariant 0 <= k <= 3
          invariant corners == CornersUpTo(face, k, vertices, normals, texCoords)
        {
          var corner := CornerOf(face, k);
          corners := corners + corner;
          k := k + 1;
        }
        FaceDataIsCorners(face, vertices, normals, texCoords);
        assert faces[..j + 1] == faces[..j] + [face];
        data := data + corners;
        j := j + 1;
      }
      assert faces[..j] == faces;
    }

    /** One corner of getVertexData's inner loop: the position when its index
        is valid, the normal or (0, 1, 0), the texcoord or (0, 0). */
    method CornerOf(face: Face, k: nat) returns (corner: seq<real>)
      requires k < 3
      ensures corner == CornerData(face, k, vertices, normals, texCoords)
    {
      var p, n, t := face.v.At(k), face.vn.At(k), face.vt.At(k);
      corner := [];
      if 0 <= p < |vertices| {
        corner := [vertices[p].x, vertices[p].y, vertices[p].z];
      }
      if 0 <= n < |normals| {
        corner := corner + [normals[n].x, normals[n].y, normals[n].z];
      } else {
        corner := corner + [0.0, 1.0, 0.0];
      }
      if 0 <= t < |texCoords| {
        corner := corner + [texCoords[t].u, texCoords[t].v];
      } else {
        corner := corner + [0.0, 0.0];
      }
    }

    /** getVertexCount: three corners per face. */
    function GetVertexCount(): (n: int)
      reads this
      ensures n == 3 * |faces|
    {
      |faces| * 3
    }

    /** getFacesByMaterial: the faces grouped by material name, "default" for none. */
    method GetFacesByMaterial() returns (groups: map<string, seq<Face>>)
      ensures groups == Grouped(faces)
    {
      groups := map[];
      var j := 0;
      while j < |faces|
        invariant 0 <= j <= |faces|
        invariant groups == Grouped(faces[..j])
      {
        var face := faces[j];
        assert faces[..j + 1][..j] == faces[..j];
        var name := face.materialName;
        if name == "" {
          name := "default";
        }
        groups := groups[name := (if name in groups then groups[name] else []) + [face]];
        j := j + 1;
      }
      assert faces[..j] == faces;
    }

    function GetMaterialNames(): (names: seq<string>)
      reads this, mtlLoader
      ensures forall n :: n in names <==> n in mtlLoader.materials
      ensures StrictlySorted(names)
    {
      mtlLoader.GetMaterialNames()
    }

    function GetMaterial(name: string): (r: Option<MtlMaterial>)
      reads this, mtlLoader
      ensures r.Some? <==> name in mtlLoader.materials
      ensures r.Some? ==> r.value == mtlLoader.materials[name]
    {
      mtlLoader.GetMaterial(name)
    }
  }

  lemma FaceDataIsCorners(f: Face, vertices: seq<Vec3>, normals: seq<Vec3>, texCoords: seq<TexCoord>)
    ensures CornersUpTo(f, 3, vertices, normals, texCoords) == FaceData(f, vertices, normals, texCoords)
  {
    assert CornersUpTo(f, 1, vertices, normals, texCoords) == CornerData(f, 0, vertices, normals, texCoords);
  }

  /** The first k corners of a face, as CornerData lays them out. */
  function CornersUpTo(f: Face, k: nat, vertices: seq<Vec3>, normals: seq<Vec3>, texCoords: seq<TexCoord>): seq<real>
    requires k <= 3
  {
    if k == 0 then [] else CornersUpTo(f, k - 1, vertices, normals, texCoords) + CornerData(f, k - 1, vertices, normals, texCoords)
  }
}
