/** ModelManager: name-keyed registries of models and materials, filled from
    OBJ/MTL files through an OBJLoader it keeps between loads. GL texture and
    buffer creation go through a `TextureApi` of function values. */
module Manager {
  import opened Vectors
  import opened Wrappers
  import opened Text
  import opened MtlLoader
  import opened ObjLoader
  import opened Transforms

  /** A material of the registry; texture handles are 0 when absent. */
  datatype Material = Material(
    diffuseTexture: nat, normalTexture: nat, specularTexture: nat,
    ambient: Vec3, diffuse: Vec3, specular: Vec3, shininess: real, alpha: real,
    name: string)

  /** A group of faces drawn with one material; its GL handles are not
      modelled, `vertexData` is what is uploaded to its buffer. */
  datatype SubModel = SubModel(vertexCount: int, materialName: string, vertexData: seq<real>)

  /** A registered model. The single-material fields are used when it has no sub-models. */
  datatype Model = Model(subModels: seq<SubModel>, name: string, transform: Transform,
    vertexCount: int, materialName: string, vertexData: seq<real>) {

    /** hasMultipleMaterials */
    predicate HasMultipleMaterials() {
      |subModels| != 0
    }
  }

  const WHITE: Vec3 := Vec3(1.0, 1.0, 1.0)

  /** Material(): no textures, ambient 0.2, diffuse 0.8, specular 1, shininess 32, opaque. */
  function NewMaterial(): (m: Material)
    ensures m.diffuseTexture == 0 && m.normalTexture == 0 && m.specularTexture == 0
    ensures m.ambient == Vec3(0.2, 0.2, 0.2) && m.diffuse == Vec3(0.8, 0.8, 0.8) && m.specular == WHITE
    ensures m.shininess == 32.0 && m.alpha == 1.0
  {
    Material(0, 0, 0, Vec3(0.2, 0.2, 0.2), Vec3(0.8, 0.8, 0.8), WHITE, 32.0, 1.0, "")
  }

  function NewModel(name: string): Model {
    Model([], name, DefaultTransform(), 0, "", [])
  }

  function NewSubModel(): SubModel {
    SubModel(0, "", [])
  }

  // ---------------------------------------------------------------- textures

  datatype TextureFormat = Red | RG | RGB | RGBA

  /** The pixel format for stb_image's channel count; none for other counts. */
  function FormatOf(channels: int): (f: Option<TextureFormat>)
    ensures f.Some? <==> 1 <= channels <= 4
  {
    if channels == 1 then Some(Red)
    else if channels == 2 then Some(RG)
    else if channels == 3 then Some(RGB)
    else if channels == 4 then Some(RGBA)
    else None
  }

  /** The number of channels each format holds, the inverse of FormatOf. */
  function Channels(f: TextureFormat): int {
    match f
    case Red => 1
    case RG => 2
    case RGB => 3
    case RGBA => 4
  }

  lemma FormatRoundTrip(f: TextureFormat, channels: int)
    ensures FormatOf(Channels(f)) == Some(f)
    ensures FormatOf(channels).Some? ==> Channels(FormatOf(channels).value) == channels
  {
  }

  /** The file system, the image decoder and the GL calls the manager makes:
      whether a file opens, the channel count stb_image decodes (none when it
      fails), the texture made by uploading a decoded file, and the 1x1
      texture createDefaultTexture makes from a colour. */
  datatype TextureApi = TextureApi(
    fileExists: string -> bool,
    decode: string -> Option<int>,
    upload: (string, TextureFormat) -> nat,
    defaultTexture: Vec3 -> nat)

  /** The places loadTextureFromFile looks when a path does not open. */
  function Candidates(path: string): seq<string> {
    [path, "../" + path, "./" + path, "assets/" + path, "resources/" + path]
  }

  function FirstExisting(api: TextureApi, paths: seq<string>): (r: Option<string>)
    ensures r.Some? ==> r.value in paths && api.fileExists(r.value)
    ensures r.None? ==> forall p :: p in paths ==> !api.fileExists(p)
    ensures r.Some? ==> exists j :: 0 <= j < |paths| && paths[j] == r.value && (forall i :: 0 <= i < j ==> !api.fileExists(paths[i]))
  {
    if |paths| == 0 then None
    else if api.fileExists(paths[0]) then Some(paths[0])
    else
      var r := FirstExisting(api, paths[1..]);
      if r.Some? then
        assert exists j :: 0 <= j < |paths| && paths[j] == r.value && forall i :: 0 <= i < j ==> !api.fileExists(paths[i]) by {
          var j :| 0 <= j < |paths[1..]| && paths[1..][j] == r.value && forall i :: 0 <= i < j ==> !api.fileExists(paths[1..][i]);
          assert paths[j + 1] == r.value;
          forall i | 0 <= i < j + 1 ensures !api.fileExists(paths[i]) {
            if i > 0 {
              assert paths[i] == paths[1..][i - 1];
            }
          }
        }
        r
      else r
  }

  /** Loading a file that opens: upload it in the format of its channel
      count, or fall back to a white default texture when decoding fails or
      the count is unsupported. */
  function LoadExisting(api: TextureApi, path: string): nat {
    match api.decode(path)
    case None => api.defaultTexture(WHITE)
    case Some(channels) =>
      match FormatOf(channels)
      case None => api.defaultTexture(WHITE)
      case Some(format) => api.upload(path, format)
  }

  /** loadTextureFromFile */
  function LoadTextureFromFile(api: TextureApi, path: string): (t: nat)
    ensures api.fileExists(path) ==> t == LoadExisting(api, path)
    ensures (forall q :: q in Candidates(path) ==> !api.fileExists(q)) ==> t == api.defaultTexture(WHITE)
  {
    if api.fileExists(path) then LoadExisting(api, path)
    else
      match FirstExisting(api, Candidates(path))
      case Some(found) => LoadExisting(api, found)
      case None => api.defaultTexture(WHITE)
  }

  /** The texture loadTextureFromFile yields is the upload of one of the
      candidate paths that opens, decoded with 1 to 4 channels in the matching
      format, or else the white default texture. */
  lemma LoadTextureOutcome(api: TextureApi, path: string)
    ensures LoadTextureFromFile(api, path) == api.defaultTexture(WHITE) ||
      exists p, channels :: p in Candidates(path) && api.fileExists(p) && api.decode(p) == Some(channels)
        && FormatOf(channels).Some? && LoadTextureFromFile(api, path) == api.upload(p, FormatOf(channels).value)
  {
    var r := LoadTextureFromFile(api, path);
    var p := if api.fileExists(path) then path else
      match FirstExisting(api, Candidates(path)) case Some(f) => f case None => path;
    if r != api.defaultTexture(WHITE) {
      assert p in Candidates(path) && api.fileExists(p);
      var channels := api.decode(p).value;
      assert api.decode(p) == Some(channels) && FormatOf(channels).Some?;
    }
  }

  // ---------------------------------------------------------------- MTL materials

  /** The material createMaterialFromMTL builds: the MTL colours, shininess
      and dissolve; the diffuse map, or a default texture of the diffuse
      colour when there is no map or it does not load; the bump map as normal
      texture and the specular map, each left at 0 when absent or not loaded. */
  function MaterialFromMtl(api: TextureApi, mtl: MtlMaterial, basePath: string): (m: Material)
    ensures m.name == mtl.name && m.ambient == mtl.ka && m.diffuse == mtl.kd && m.specular == mtl.ks
    ensures m.shininess == mtl.ns && m.alpha == mtl.d
    ensures mtl.mapKd == "" ==> m.diffuseTexture == api.defaultTexture(mtl.kd)
    ensures mtl.mapBump == "" ==> m.normalTexture == 0
    ensures mtl.mapKs == "" ==> m.specularTexture == 0
  {
    var diffuseTexture :=
      if mtl.mapKd != "" then
        var t := LoadTextureFromFile(api, basePath + mtl.mapKd);
        if t != 0 then t else api.defaultTexture(mtl.kd)
      else api.defaultTexture(mtl.kd);
    var normalTexture := if mtl.mapBump != "" then LoadTextureFromFile(api, basePath + mtl.mapBump) else 0;
    var specularTexture := if mtl.mapKs != "" then LoadTextureFromFile(api, basePath + mtl.mapKs) else 0;
    Material(diffuseTexture, normalTexture, specularTexture, mtl.ka, mtl.kd, mtl.ks, mtl.ns, mtl.d, mtl.name)
  }

  /** createMaterialFromMTL on the registry: existing names are kept. */
  function AddFromMtl(materials: map<string, Material>, api: TextureApi, mtl: MtlMaterial, basePath: string): (r: map<string, Material>)
    ensures mtl.name in materials ==> r == materials
    ensures mtl.name !in materials ==> r == materials[mtl.name := MaterialFromMtl(api, mtl, basePath)]
  {
    if mtl.name in materials then materials else materials[mtl.name := MaterialFromMtl(api, mtl, basePath)]
  }

  /** loadModel's pass over the library's material names, in order. */
  function AddAllFromMtl(materials: map<string, Material>, api: TextureApi, library: map<string, MtlMaterial>,
                         names: seq<string>, basePath: string): (r: map<string, Material>)
    ensures materials.Keys <= r.Keys
    ensures forall n :: n in r && n !in materials ==>
      exists k :: 0 <= k < |names| && names[k] in library && library[names[k]].name == n
  {
    if |names| == 0 then materials
    else
      var before := AddAllFromMtl(materials, api, library, names[..|names| - 1], basePath);
      var n := names[|names| - 1];
      if n in library then AddFromMtl(before, api, library[n], basePath) else before
  }

  /** The pass only adds: every existing material is kept as it was, and a
      library material whose name was free is added under its own name. */
  lemma {:induction false} AddAllFromMtlKeeps(materials: map<string, Material>, api: TextureApi,
      library: map<string, MtlMaterial>, names: seq<string>, basePath: string)
    requires forall n :: n in library ==> library[n].name == n
    ensures var r := AddAllFromMtl(materials, api, library, names, basePath);
      (forall n :: n in materials ==> n in r && r[n] == materials[n]) &&
      (forall n :: n in r <==> n in materials || (n in names && n in library)) &&
      (forall n :: n in r && n !in materials ==> r[n] == MaterialFromMtl(api, library[n], basePath))
  {
    if |names| > 0 {
      var init := names[..|names| - 1];
      AddAllFromMtlKeeps(materials, api, library, init, basePath);
      assert forall n :: n in names <==> n in init || n == names[|names| - 1];
    }
  }

  // ---------------------------------------------------------------- sub-models

  /** The eight floats createSubModel emits for one corner. The face's
      indices are already zero-based, and createSubModel subtracts one again. */
  function SubModelCorner(f: Face, k: nat, vertices: seq<Vec3>, normals: seq<Vec3>, texCoords: seq<TexCoord>): (d: seq<real>)
    requires k < 3
    ensures |d| == 8
  {
    var vi := f.v.At(k) - 1;
    var ni := f.vn.At(k) - 1;
    var ti := f.vt.At(k) - 1;
    (if 0 <= vi < |vertices| then [vertices[vi].x, vertices[vi].y, vertices[vi].z] else [0.0, 0.0, 0.0]) +
    (if 0 <= ni < |normals| then [normals[ni].x, normals[ni].y, normals[ni].z] else [0.0, 0.0, 1.0]) +
    (if 0 <= ti < |texCoords| then [texCoords[ti].u, texCoords[ti].v] else [0.0, 0.0])
  }

  function SubModelFace(f: Face, vertices: seq<Vec3>, normals: seq<Vec3>, texCoords: seq<TexCoord>): seq<real> {
    SubModelCorner(f, 0, vertices, normals, texCoords) + SubModelCorner(f, 1, vertices, normals, texCoords)
      + SubModelCorner(f, 2, vertices, normals, texCoords)
  }

  /** The vertex data createSubModel uploads for the faces. */
  function SubModelData(faces: seq<Face>, vertices: seq<Vec3>, normals: seq<Vec3>, texCoords: seq<TexCoord>): seq<real> {
    if |faces| == 0 then []
    else SubModelData(faces[..|faces| - 1], vertices, normals, texCoords) + SubModelFace(faces[|faces| - 1], vertices, normals, texCoords)
  }

  /** Eight floats per corner, whatever the indices: 24 per face. */
  lemma {:induction false} SubModelDataLength(faces: seq<Face>, vertices: seq<Vec3>, normals: seq<Vec3>, texCoords: seq<TexCoord>)
    ensures |SubModelData(faces, vertices, normals, texCoords)| == 24 * |faces|
  {
    if |faces| > 0 {
      SubModelDataLength(faces[..|faces| - 1], vertices, normals, texCoords);
    }
  }

  /** The position of corner k as the file names it: the zero-based index
      parseFace stored. This is the intended reading of createSubModel. */
  function IntendedCorner(f: Face, k: nat, vertices: seq<Vec3>, normals: seq<Vec3>, texCoords: seq<TexCoord>): (d: seq<real>)
    requires k < 3
    ensures |d| == 8
    ensures 0 <= f.v.At(k) < |vertices| ==> d[..3] == [vertices[f.v.At(k)].x, vertices[f.v.At(k)].y, vertices[f.v.At(k)].z]
  {
    var vi := f.v.At(k);
    var ni := f.vn.At(k);
    var ti := f.vt.At(k);
    (if 0 <= vi < |vertices| then [vertices[vi].x, vertices[vi].y, vertices[vi].z] else [0.0, 0.0, 0.0]) +
    (if 0 <= ni < |normals| then [normals[ni].x, normals[ni].y, normals[ni].z] else [0.0, 0.0, 1.0]) +
    (if 0 <= ti < |texCoords| then [texCoords[ti].u, texCoords[ti].v] else [0.0, 0.0])
  }

  function IntendedFace(f: Face, vertices: seq<Vec3>, normals: seq<Vec3>, texCoords: seq<TexCoord>): seq<real> {
    IntendedCorner(f, 0, vertices, normals, texCoords) + IntendedCorner(f, 1, vertices, normals, texCoords)
      + IntendedCorner(f, 2, vertices, normals, texCoords)
  }

  /** createSubModel's vertex data with the indices parseFace stored used as they are. */
  function IntendedSubModelData(faces: seq<Face>, vertices: seq<Vec3>, normals: seq<Vec3>, texCoords: seq<TexCoord>): seq<real> {
    if |faces| == 0 then []
    else IntendedSubModelData(faces[..|faces| - 1], vertices, normals, texCoords) + IntendedFace(faces[|faces| - 1], vertices, normals, texCoords)
  }

  /** Every position and normal index of the faces is in range. */
  predicate IndicesValid(faces: seq<Face>, nVertices: nat, nNormals: nat) {
    forall j, k :: 0 <= j < |faces| && 0 <= k < 3 ==> 0 <= faces[j].v.At(k) < nVertices && 0 <= faces[j].vn.At(k) < nNormals
  }

  /** Corrected, the multi-material path uploads exactly what the
      single-material path (getVertexData) uploads whenever every position
      and normal index is in range; the two differ only in their defaults. */
  lemma {:induction false} IntendedMatchesVertexData(faces: seq<Face>, vertices: seq<Vec3>, normals: seq<Vec3>, texCoords: seq<TexCoord>)
    requires IndicesValid(faces, |vertices|, |normals|)
    ensures IntendedSubModelData(faces, vertices, normals, texCoords) == VertexData(faces, vertices, normals, texCoords)
  {
    if |faces| > 0 {
      var init := faces[..|faces| - 1];
      var f := faces[|faces| - 1];
      assert IndicesValid(init, |vertices|, |normals|) by {
        forall j, k | 0 <= j < |init| && 0 <= k < 3
          ensures 0 <= init[j].v.At(k) < |vertices| && 0 <= init[j].vn.At(k) < |normals|
        {
          assert init[j] == faces[j];
        }
      }
      IntendedMatchesVertexData(init, vertices, normals, texCoords);
      assert faces[|faces| - 1] == f;
      assert IntendedCorner(f, 0, vertices, normals, texCoords) == CornerData(f, 0, vertices, normals, texCoords);
      assert IntendedCorner(f, 1, vertices, normals, texCoords) == CornerData(f, 1, vertices, normals, texCoords);
      assert IntendedCorner(f, 2, vertices, normals, texCoords) == CornerData(f, 2, vertices, normals, texCoords);
    }
  }

  /** Intended: a face line naming the 1-based vertex n puts that vertex's
      position, vertices[n - 1], in the corner's data. */
  lemma IntendedCornerUsesNamedVertex(f: Face, k: nat, n: int, vertices: seq<Vec3>, normals: seq<Vec3>, texCoords: seq<TexCoord>)
    requires k < 3 && 1 <= n <= |vertices| && f.v.At(k) == n - 1
    ensures IntendedCorner(f, k, vertices, normals, texCoords)[..3] == [vertices[n - 1].x, vertices[n - 1].y, vertices[n - 1].z]
  {
  }

  /** As written: for the face "f 1 2 3" (stored as 0, 1, 2) over three
      distinct vertices, the first corner gets the origin instead of vertex 1
      and the second corner gets vertex 1 instead of vertex 2. */
  lemma DoubleOffsetShiftsCorners()
    ensures var vs := [AxisX, AxisY, AxisZ];
      var f := Face(Triple(0, 1, 2), NO_INDEX, NO_INDEX, "");
      SubModelCorner(f, 0, vs, [], [])[..3] == [0.0, 0.0, 0.0] &&
      IntendedCorner(f, 0, vs, [], [])[..3] == [1.0, 0.0, 0.0] &&
      SubModelCorner(f, 1, vs, [], [])[..3] == [1.0, 0.0, 0.0] &&
      IntendedCorner(f, 1, vs, [], [])[..3] == [0.0, 1.0, 0.0]
  {
  }

  /** The sub-models loadModel builds, one per non-empty group, in key order. */
  function SubModelsOf(groups: map<string, seq<Face>>, keys: seq<string>,
                       vertices: seq<Vec3>, normals: seq<Vec3>, texCoords: seq<TexCoord>): seq<SubModel>
    requires forall k :: k in keys ==> k in groups
  {
    if |keys| == 0 then []
    else
      var before := SubModelsOf(groups, keys[..|keys| - 1], vertices, normals, texCoords);
      var key := keys[|keys| - 1];
      var faces := groups[key];
      if |faces| == 0 then before
      else before + [SubModel(3 * |faces|, key, SubModelData(faces, vertices, normals, texCoords))]
  }

  /** With no empty group, there is one sub-model per key. */
  lemma {:induction false} SubModelsOfNonEmpty(groups: map<string, seq<Face>>, keys: seq<string>,
      vertices: seq<Vec3>, normals: seq<Vec3>, texCoords: seq<TexCoord>)
    requires forall k :: k in keys ==> k in groups && |groups[k]| > 0
    ensures |SubModelsOf(groups, keys, vertices, normals, texCoords)| == |keys|
  {
    if |keys| > 0 {
      SubModelsOfNonEmpty(groups, keys[..|keys| - 1], vertices, normals, texCoords);
    }
  }

  /** getFacesByMaterial never yields an empty group. */
  lemma GroupsNonEmpty(faces: seq<Face>)
    ensures forall k :: k in Grouped(faces) ==> |Grouped(faces)[k]| > 0
  {
    GroupedIsFiltering(faces);
    forall k | k in Grouped(faces)
      ensures |Grouped(faces)[k]| > 0
    {
      var j :| 0 <= j < |faces| && GroupName(faces[j]) == k;
      FacesInHas(faces, j);
    }
  }

  /** A face's own group holds at least that face. */
  lemma {:induction false} FacesInHas(faces: seq<Face>, j: nat)
    requires j < |faces|
    ensures |FacesIn(faces, GroupName(faces[j]))| > 0
  {
    var init := faces[..|faces| - 1];
    if j < |init| {
      assert init[j] == faces[j];
      FacesInHas(init, j);
    }
  }

  // ---------------------------------------------------------------- uv range

  /** The range debugTextureCoordinates reports. */
  datatype UvRange = UvRange(minU: real, maxU: real, minV: real, maxV: real)

  /** debugTextureCoordinates: nothing for no coordinates; otherwise the
      smallest and largest u and v. */
  method DebugTextureCoordinates(texCoords: seq<TexCoord>) returns (r: Option<UvRange>)
    ensures r.None? <==> |texCoords| == 0
    ensures r.Some? ==> forall j :: 0 <= j < |texCoords| ==>
      r.value.minU <= texCoords[j].u <= r.value.maxU && r.value.minV <= texCoords[j].v <= r.value.maxV
    ensures r.Some? ==> ((exists j :: 0 <= j < |texCoords| && texCoords[j].u == r.value.minU) &&
      (exists j :: 0 <= j < |texCoords| && texCoords[j].u == r.value.maxU) &&
      (exists j :: 0 <= j < |texCoords| && texCoords[j].v == r.value.minV) &&
      (exists j :: 0 <= j < |texCoords| && texCoords[j].v == r.value.maxV))
  {
    if |texCoords| == 0 {
      return None;
    }
    var minU, maxU := texCoords[0].u, texCoords[0].u;
    var minV, maxV := texCoords[0].v, texCoords[0].v;
    var j := 0;
    while j < |texCoords|
      invariant 0 <= j <= |texCoords|
      invariant forall i :: 0 <= i < j ==> minU <= texCoords[i].u <= maxU && minV <= texCoords[i].v <= maxV
      invariant exists i :: 0 <= i < |texCoords| && texCoords[i].u == minU
      invariant exists i :: 0 <= i < |texCoords| && texCoords[i].u == maxU
      invariant exists i :: 0 <= i < |texCoords| && texCoords[i].v == minV
      invariant exists i :: 0 <= i < |texCoords| && texCoords[i].v == maxV
    {
      var tc := texCoords[j];
      minU := Min(minU, tc.u);
      maxU := Max(maxU, tc.u);
      minV := Min(minV, tc.v);
      maxV := Max(maxV, tc.v);
      j := j + 1;
    }
    return Some(UvRange(minU, maxU, minV, maxV));
  }

  // ---------------------------------------------------------------- the manager

  class ModelManager {
    var models: map<string, Model>
    var materials: map<string, Material>
    var loader: OBJLoader

    constructor ()
      ensures models == map[] && materials == map[] && fresh(loader) && fresh(loader.mtlLoader)
      ensures loader.faces == [] && loader.mtlLoader.materials == map[]
    {
      models, materials := map[], map[];
      loader := new OBJLoader();
    }

    /** createMaterial: false when the name is taken; otherwise the default
        material under that name, with a white default texture as diffuse map. */
    method CreateMaterial(materialName: string, api: TextureApi) returns (created: bool)
      modifies this`materials
      ensures created <==> materialName !in old(materials)
      ensures !created ==> materials == old(materials)
      ensures created ==> materials == old(materials)[materialName :=
        NewMaterial().(name := materialName, diffuseTexture := api.defaultTexture(WHITE))]
    {
      if materialName in materials {
        return false;
      }
      var material := NewMaterial().(name := materialName);
      material := material.(diffuseTexture := api.defaultTexture(WHITE));
      materials := materials[materialName := material];
      return true;
    }

    /** loadDiffuseTexture: false for an unknown material; otherwise the
        loaded handle replaces the diffuse map when it is not 0. */
    method LoadDiffuseTexture(materialName: string, texturePath: string, api: TextureApi) returns (ok: bool)
      modifies this`materials
      ensures ok <==> materialName in old(materials) && LoadTextureFromFile(api, texturePath) != 0
      ensures ok ==> materials == old(materials)[materialName :=
        old(materials)[materialName].(diffuseTexture := LoadTextureFromFile(api, texturePath))]
      ensures !ok ==> materials == old(materials)
    {
      if materialName !in materials {
        return false;
      }
      var texture := LoadTextureFromFile(api, texturePath);
      if texture != 0 {
        materials := materials[materialName := materials[materialName].(diffuseTexture := texture)];
        return true;
      }
      return false;
    }

    /** loadNormalTexture, as loadDiffuseTexture for the normal map. */
    method LoadNormalTexture(materialName: string, texturePath: string, api: TextureApi) returns (ok: bool)
      modifies this`materials
      ensures ok <==> materialName in old(materials) && LoadTextureFromFile(api, texturePath) != 0
      ensures ok ==> materials == old(materials)[materialName :=
        old(materials)[materialName].(normalTexture := LoadTextureFromFile(api, texturePath))]
      ensures !ok ==> materials == old(materials)
    {
      if materialName !in materials {
        return false;
      }
      var texture := LoadTextureFromFile(api, texturePath);
      if texture != 0 {
        materials := materials[materialName := materials[materialName].(normalTexture := texture)];
        return true;
      }
      return false;
    }

    /** loadSpecularTexture, as loadDiffuseTexture for the specular map. */
    method LoadSpecularTexture(materialName: string, texturePath: string, api: TextureApi) returns (ok: bool)
      modifies this`materials
      ensures ok <==> materialName in old(materials) && LoadTextureFromFile(api, texturePath) != 0
      ensures ok ==> materials == old(materials)[materialName :=
        old(materials)[materialName].(specularTexture := LoadTextureFromFile(api, texturePath))]
      ensures !ok ==> materials == old(materials)
    {
      if materialName !in materials {
        return false;
      }
      var texture := LoadTextureFromFile(api, texturePath);
      if texture != 0 {
        materials := materials[materialName := materials[materialName].(specularTexture := texture)];
        return true;
      }
      return false;
    }

    method SetMaterialAmbient(materialName: string, r: real, g: real, b: real)
      modifies this`materials
      ensures materialName in old(materials) ==>
        materials == old(materials)[materialName := old(materials)[materialName].(ambient := Vec3(r, g, b))]
      ensures materialName !in old(materials) ==> materials == old(materials)
    {
      if materialName in materials {
        materials := materials[materialName := materials[materialName].(ambient := Vec3(r, g, b))];
      }
    }

    method SetMaterialDiffuse(materialName: string, r: real, g: real, b: real)
      modifies this`materials
      ensures materialName in old(materials) ==>
        materials == old(materials)[materialName := old(materials)[materialName].(diffuse := Vec3(r, g, b))]
      ensures materialName !in old(materials) ==> materials == old(materials)
    {
      if materialName in materials {
        materials := materials[materialName := materials[materialName].(diffuse := Vec3(r, g, b))];
      }
    }

    method SetMaterialSpecular(materialName: string, r: real, g: real, b: real)
      modifies this`materials
      ensures materialName in old(materials) ==>
        materials == old(materials)[materialName := old(materials)[materialName].(specular := Vec3(r, g, b))]
      ensures materialName !in old(materials) ==> materials == old(materials)
    {
      if materialName in materials {
        materials := materials[materialName := materials[materialName].(specular := Vec3(r, g, b))];
      }
    }

    method SetMaterialShininess(materialName: string, shininess: real)
      modifies this`materials
      ensures materialName in old(materials) ==>
        materials == old(materials)[materialName := old(materials)[materialName].(shininess := shininess)]
      ensures materialName !in old(materials) ==> materials == old(materials)
    {
      if materialName in materials {
        materials := materials[materialName := materials[materialName].(shininess := shininess)];
      }
    }

    method SetMaterialAlpha(materialName: string, alpha: real)
      modifies this`materials
      ensures materialName in old(materials) ==>
        materials == old(materials)[materialName := old(materials)[materialName].(alpha := alpha)]
      ensures materialName !in old(materials) ==> materials == old(materials)
    {
      if materialName in materials {
        materials := materials[materialName := materials[materialName].(alpha := alpha)];
      }
    }

    /** assignMaterialToModel: only when both the model and the material exist. */
    method AssignMaterialToModel(modelName: string, materialName: string)
      modifies this`models
      ensures modelName in old(models) && materialName in materials ==>
        models == old(models)[modelName := old(models)[modelName].(materialName := materialName)]
      ensures !(modelName in old(models) && materialName in materials) ==> models == old(models)
    {
      if modelName in models && materialName in materials {
        models := models[modelName := models[modelName].(materialName := materialName)];
      }
    }

    method SetModelTransform(modelName: string, transform: Transform)
      modifies this`models
      ensures modelName in old(models) ==>
        models == old(models)[modelName := old(models)[modelName].(transform := transform)]
      ensures modelName !in old(models) ==> models == old(models)
    {
      if modelName in models {
        models := models[modelName := models[modelName].(transform := transform)];
      }
    }

    /** setModelScale(name, u) */
    method SetModelUniformScale(modelName: string, scale: real)
      modifies this`models
      ensures modelName in old(models) ==> models == old(models)[modelName :=
        old(models)[modelName].(transform := old(models)[modelName].transform.SetUniformScale(scale))]
      ensures modelName !in old(models) ==> models == old(models)
    {
      if modelName in models {
        var model := models[modelName];
        models := models[modelName := model.(transform := model.transform.SetUniformScale(scale))];
      }
    }

    /** setModelScale(name, x, y, z) */
    method SetModelScale(modelName: string, x: real, y: real, z: real)
      modifies this`models
      ensures modelName in old(models) ==> models == old(models)[modelName :=
        old(models)[modelName].(transform := old(models)[modelName].transform.SetScale(x, y, z))]
      ensures modelName !in old(models) ==> models == old(models)
    {
      if modelName in models {
        var model := models[modelName];
        models := models[modelName := model.(transform := model.transform.SetScale(x, y, z))];
      }
    }

    method SetModelPosition(modelName: string, x: real, y: real, z: real)
      modifies this`models
      ensures modelName in old(models) ==> models == old(models)[modelName :=
        old(models)[modelName].(transform := old(models)[modelName].transform.SetPosition(x, y, z))]
      ensures modelName !in old(models) ==> models == old(models)
    {
      if modelName in models {
        var model := models[modelName];
        models := models[modelName := model.(transform := model.transform.SetPosition(x, y, z))];
      }
    }

    method SetModelRotation(modelName: string, x: real, y: real, z: real)
      modifies this`models
      ensures modelName in old(models) ==> models == old(models)[modelName :=
        old(models)[modelName].(transform := old(models)[modelName].transform.SetRotation(x, y, z))]
      ensures modelName !in old(models) ==> models == old(models)
    {
      if modelName in models {
        var model := models[modelName];
        models := models[modelName := model.(transform := model.transform.SetRotation(x, y, z))];
      }
    }

    /** getModelTransform / getModel / getMaterial: the entry, or null. */
    function GetModelTransform(modelName: string): (t: Option<Transform>)
      reads this
      ensures t.Some? <==> modelName in models
      ensures t.Some? ==> t.value == models[modelName].transform
    {
      if modelName in models then Some(models[modelName].transform) else None
    }

    function GetModel(modelName: string): (m: Option<Model>)
      reads this
      ensures m.Some? <==> modelName in models
      ensures m.Some? ==> m.value == models[modelName]
    {
      if modelName in models then Some(models[modelName]) else None
    }

    function GetMaterial(materialName: string): (m: Option<Material>)
      reads this
      ensures m.Some? <==> materialName in materials
      ensures m.Some? ==> m.value == materials[materialName]
    {
      if materialName in materials then Some(materials[materialName]) else None
    }

    predicate HasModel(modelName: string)
      reads this
    {
      modelName in models
    }

    predicate HasMaterial(materialName: string)
      reads this
    {
      materialName in materials
    }

    /** removeModel: that entry goes, the others stay. */
    method RemoveModel(modelName: string)
      modifies this`models
      ensures models == old(models) - {modelName}
      ensures !HasModel(modelName)
    {
      if modelName in models {
        models := models - {modelName};
      }
    }

    method RemoveMaterial(materialName: string)
      modifies this`materials
      ensures materials == old(materials) - {materialName}
      ensures !HasMaterial(materialName)
    {
      if materialName in materials {
        materials := materials - {materialName};
      }
    }

    /** cleanup: both registries are emptied. */
    method Cleanup()
      modifies this`models, this`materials
      ensures models == map[] && materials == map[]
    {
      models := map[];
      materials := map[];
    }

    /** getModelNames: every model name once, in the map's (sorted) order. */
    function GetModelNames(): (names: seq<string>)
      reads this
      ensures forall n :: n in names <==> n in models
      ensures StrictlySorted(names)
    {
      SortedStrings(models.Keys)
    }

    function GetMaterialNames(): (names: seq<string>)
      reads this
      ensures forall n :: n in names <==> n in materials
      ensures StrictlySorted(names)
    {
      SortedStrings(materials.Keys)
    }

    /** createMaterialFromMTL */
    method CreateMaterialFromMtl(mtl: MtlMaterial, basePath: string, api: TextureApi)
      modifies this`materials
      ensures materials == AddFromMtl(old(materials), api, mtl, basePath)
    {
      if mtl.name in materials {
        return;
      }
      var diffuseTexture := 0;
      if mtl.mapKd != "" {
        diffuseTexture := LoadTextureFromFile(api, basePath + mtl.mapKd);
        if diffuseTexture == 0 {
          diffuseTexture := api.defaultTexture(mtl.kd);
        }
      } else {
        diffuseTexture := api.defaultTexture(mtl.kd);
      }
      var normalTexture := 0;
      if mtl.mapBump != "" {
        var t := LoadTextureFromFile(api, basePath + mtl.mapBump);
        if t != 0 {
          normalTexture := t;
        }
      }
      var specularTexture := 0;
      if mtl.mapKs != "" {
        var t := LoadTextureFromFile(api, basePath + mtl.mapKs);
        if t != 0 {
          specularTexture := t;
        }
      }
      var material := Material(diffuseTexture, normalTexture, specularTexture, mtl.ka, mtl.kd, mtl.ks, mtl.ns, mtl.d, mtl.name);
      materials := materials[material.name := material];
    }

    /** createSubModel: with no faces the sub-model is returned unchanged;
        otherwise it gets 8 floats per corner, 3 corners per face, and the material name. */
    method CreateSubModel(faces: seq<Face>, materialName: string, subModel: SubModel,
                          vertices: seq<Vec3>, normals: seq<Vec3>, texCoords: seq<TexCoord>) returns (r: SubModel)
      ensures |faces| == 0 ==> r == subModel
      ensures |faces| > 0 ==> r == SubModel(|faces| * 3, materialName, SubModelData(faces, vertices, normals, texCoords))
    {
      if |faces| == 0 {
        return subModel;
      }
      var vertexData: seq<real> := [];
      var j := 0;
      while j < |faces|
        invariant 0 <= j <= |faces|
        invariant vertexData == SubModelData(faces[..j], vertices, normals, texCoords)
      {
        var face := faces[j];
        var corners := FaceVertexData(face, vertices, normals, texCoords);
        assert faces[..j + 1] == faces[..j] + [face];
        vertexData := vertexData + corners;
        j := j + 1;
      }
      assert faces[..j] == faces;
      return SubModel(|faces| * 3, materialName, vertexData);
    }

    /** createSubModel's inner loop over a face's three corners. */
    static method FaceVertexData(face: Face, vertices: seq<Vec3>, normals: seq<Vec3>, texCoords: seq<TexCoord>)
      returns (corners: seq<real>)
      ensures corners == SubModelFace(face, vertices, normals, texCoords)
    {
      corners := [];
      var i := 0;
      while i < 3
        invariant 0 <= i <= 3
        invariant corners == SubModelCornersUpTo(face, i, vertices, normals, texCoords)
      {
        var corner := CornerVertexData(face, i, vertices, normals, texCoords);
        corners := corners + corner;
        i := i + 1;
      }
      SubModelFaceIsCorners(face, vertices, normals, texCoords);
    }

    /** One corner: position, normal and texture coordinate, each read one
        below the face's index or defaulted when out of range. */
    static method CornerVertexData(face: Face, i: nat, vertices: seq<Vec3>, normals: seq<Vec3>, texCoords: seq<TexCoord>)
      returns (corner: seq<real>)
      requires i < 3
      ensures corner == SubModelCorner(face, i, vertices, normals, texCoords)
    {
      var vertexIndex := face.v.At(i) - 1;
      var normalIndex := face.vn.At(i) - 1;
      var texCoordIndex := face.vt.At(i) - 1;
      if 0 <= vertexIndex < |vertices| {
        corner := [vertices[vertexIndex].x, vertices[vertexIndex].y, vertices[vertexIndex].z];
      } else {
        corner := [0.0, 0.0, 0.0];
      }
      if 0 <= normalIndex < |normals| {
        corner := corner + [normals[normalIndex].x, normals[normalIndex].y, normals[normalIndex].z];
      } else {
        corner := corner + [0.0, 0.0, 1.0];
      }
      if 0 <= texCoordIndex < |texCoords| {
        corner := corner + [texCoords[texCoordIndex].u, texCoords[texCoordIndex].v];
      } else {
        corner := corner + [0.0, 0.0];
      }
    }

    /** loadModel's pass over the library's material names. */
    method CreateMaterialsFromLibrary(names: seq<string>, basePath: string, api: TextureApi)
      modifies this`materials
      ensures materials == AddAllFromMtl(old(materials), api, loader.mtlLoader.materials, names, basePath)
    {
      var j := 0;
      while j < |names|
        invariant 0 <= j <= |names|
        invariant materials == AddAllFromMtl(old(materials), api, loader.mtlLoader.materials, names[..j], basePath)
      {
        assert names[..j + 1][..j] == names[..j];
        var mtlMat := loader.GetMaterial(names[j]);
        if mtlMat.Some? {
          CreateMaterialFromMtl(mtlMat.value, basePath, api);
        }
        j := j + 1;
      }
      assert names[..j] == names;
    }

    /** loadModel's pass over the face groups, in key order. */
    method BuildSubModels(groups: map<string, seq<Face>>, keys: seq<string>) returns (subModels: seq<SubModel>)
      requires forall k :: k in keys ==> k in groups
      ensures subModels == SubModelsOf(groups, keys, loader.vertices, loader.normals, loader.texCoords)
    {
      subModels := [];
      var j := 0;
      while j < |keys|
        invariant 0 <= j <= |keys|
        invariant subModels == SubModelsOf(groups, keys[..j], loader.vertices, loader.normals, loader.texCoords)
      {
        assert keys[..j + 1][..j] == keys[..j];
        var materialName := keys[j];
        var faces := groups[materialName];
        if |faces| != 0 {
          var subModel := NewSubModel().(materialName := materialName);
          subModel := CreateSubModel(faces, materialName, subModel, loader.vertices, loader.normals, loader.texCoords);
          subModels := subModels + [subModel];
        }
        j := j + 1;
      }
      assert keys[..j] == keys;
    }

    /** The model loadModel builds from what the loader holds after a
        successful load, adding the library's materials when there are any. */
    method BuildModel(modelName: string, api: TextureApi) returns (model: Model)
      modifies this`materials
      ensures model.name == modelName && model.transform == DefaultTransform() && model.materialName == ""
      ensures |loader.GetMaterialNames()| == 0 ==> (materials == old(materials)
        && model.subModels == []
        && model.vertexData == VertexData(loader.faces, loader.vertices, loader.normals, loader.texCoords)
        && model.vertexCount == 3 * |loader.faces|)
      ensures |loader.GetMaterialNames()| > 0 ==> (
        materials == AddAllFromMtl(old(materials), api, loader.mtlLoader.materials, loader.GetMaterialNames(), loader.mtlLoader.basePath)
        && model.vertexData == [] && model.vertexCount == 0
        && model.subModels == SubModelsOf(Grouped(loader.faces), SortedStrings(Grouped(loader.faces).Keys),
             loader.vertices, loader.normals, loader.texCoords))
    {
      model := NewModel(modelName);
      var materialNames := loader.GetMaterialNames();
      if |materialNames| != 0 {
        var basePath := loader.mtlLoader.basePath;
        CreateMaterialsFromLibrary(materialNames, basePath, api);
        var facesByMaterial := loader.GetFacesByMaterial();
        var keys := SortedStrings(facesByMaterial.Keys);
        var subModels := BuildSubModels(facesByMaterial, keys);
        model := model.(subModels := subModels);
      } else {
        var vertexData := loader.GetVertexData();
        var vertexCount := loader.GetVertexCount();
        model := model.(vertexCount := vertexCount, vertexData := vertexData);
      }
    }

    /** loadModel: false, with both registries unchanged, when the OBJ file
        does not open. Otherwise the model is (re)bound under its name: with
        material names in the loader, their materials are added and there is
        one sub-model per face group; without, the model carries the
        loader's interleaved vertex data itself. */
    method LoadModel(modelName: string, filepath: string, fs: FileSystem, api: TextureApi) returns (ok: bool)
      requires filepath in fs ==> FacesReadable(fs[filepath])
      modifies this`models, this`materials, loader, loader.mtlLoader
      ensures loader == old(loader) && loader.mtlLoader == old(loader.mtlLoader)
      ensures ok <==> filepath in fs
      ensures !ok ==> models == old(models) && materials == old(materials)
      ensures ok ==> (modelName in models && models == old(models)[modelName := models[modelName]]
        && models[modelName].name == modelName && models[modelName].transform == DefaultTransform()
        && models[modelName].materialName == "")
      ensures ok && |loader.GetMaterialNames()| == 0 ==> (materials == old(materials)
        && models[modelName].subModels == []
        && models[modelName].vertexData == VertexData(loader.faces, loader.vertices, loader.normals, loader.texCoords)
        && models[modelName].vertexCount == 3 * |loader.faces|)
      ensures ok ==> (var r := ObjRead(fs, DirectoryWithSeparator(filepath), fs[filepath]);
        loader.basePath == DirectoryWithSeparator(filepath) &&
        loader.vertices == r.vertices && loader.normals == r.normals && loader.texCoords == r.texCoords &&
        loader.faces == r.faces && loader.currentMaterial == r.currentMaterial &&
        (r.lastMtl.None? ==> (loader.mtlLoader.materials == old(loader.mtlLoader.materials)
          && loader.mtlLoader.basePath == old(loader.mtlLoader.basePath))) &&
        (r.lastMtl.Some? ==> (loader.mtlLoader.materials == MtlRead(fs[r.lastMtl.value]).materials
          && loader.mtlLoader.basePath == DirectoryWithSeparator(r.lastMtl.value))))
      ensures ok && |loader.GetMaterialNames()| > 0 ==> (
        materials == AddAllFromMtl(old(materials), api, loader.mtlLoader.materials, loader.GetMaterialNames(), loader.mtlLoader.basePath)
        && models[modelName].vertexData == [] && models[modelName].vertexCount == 0
        && models[modelName].subModels == SubModelsOf(Grouped(loader.faces), SortedStrings(Grouped(loader.faces).Keys),
             loader.vertices, loader.normals, loader.texCoords))
    {
      ok := loader.LoadOBJ(fs, filepath);
      if !ok {
        return false;
      }
      var model := BuildModel(modelName, api);
      models := models[modelName := model];
      return true;
    }
  }

  /** The first k corners of a face as createSubModel lays them out. */
  function SubModelCornersUpTo(f: Face, k: nat, vertices: seq<Vec3>, normals: seq<Vec3>, texCoords: seq<TexCoord>): seq<real>
    requires k <= 3
  {
    if k == 0 then [] else SubModelCornersUpTo(f, k - 1, vertices, normals, texCoords) + SubModelCorner(f, k - 1, vertices, normals, texCoords)
  }

  lemma SubModelFaceIsCorners(f: Face, vertices: seq<Vec3>, normals: seq<Vec3>, texCoords: seq<TexCoord>)
    ensures SubModelCornersUpTo(f, 3, vertices, normals, texCoords) == SubModelFace(f, vertices, normals, texCoords)
  {
    assert SubModelCornersUpTo(f, 1, vertices, normals, texCoords) == SubModelCorner(f, 0, vertices, normals, texCoords);
  }

  /** A model loaded with material names has several materials exactly when
      some face group exists, that is, when the file has at least one face. */
  lemma MultipleMaterialsIffFaces(faces: seq<Face>, vertices: seq<Vec3>, normals: seq<Vec3>, texCoords: seq<TexCoord>)
    ensures var subs := SubModelsOf(Grouped(faces), SortedStrings(Grouped(faces).Keys), vertices, normals, texCoords);
      |subs| == |Grouped(faces)| && (|subs| > 0 <==> |faces| > 0)
  {
    var keys := SortedStrings(Grouped(faces).Keys);
    GroupsNonEmpty(faces);
    SubModelsOfNonEmpty(Grouped(faces), keys, vertices, normals, texCoords);
    GroupedIsFiltering(faces);
    SortedKeysCount(Grouped(faces).Keys, keys);
    if |faces| > 0 {
      assert GroupName(faces[0]) in Grouped(faces);
    } else {
      assert Grouped(faces) == map[];
    }
  }

  /** A strictly sorted listing of a set has one entry per element. */
  lemma SortedKeysCount(s: set<string>, xs: seq<string>)
    requires StrictlySorted(xs) && forall n :: n in xs <==> n in s
    ensures |xs| == |s|
  {
    NoDuplicatesCount(s, xs);
  }

  lemma {:induction false} NoDuplicatesCount(s: set<string>, xs: seq<string>)
    requires StrictlySorted(xs) && forall n :: n in xs <==> n in s
    ensures |xs| == |s|
    decreases |xs|
  {
    if |xs| > 0 {
      var last := xs[|xs| - 1];
      var init := xs[..|xs| - 1];
      assert StrictlySorted(init);
      forall j | 0 <= j < |init|
        ensures init[j] != last
      {
        assert LexLess(xs[j], xs[|xs| - 1]);
      }
      assert forall n :: n in init <==> n in s - {last};
      NoDuplicatesCount(s - {last}, init);
    } else {
      assert forall n :: n !in s;
      assert s == {};
    }
  }
}
