/** MTLLoader: reads Wavefront material libraries line by line into a map
    from material name to colours, shininess, dissolve and texture file names. */
module MtlLoader {
  import opened Vectors
  import opened Wrappers
  import opened Text
  import opened Numbers

  datatype MtlMaterial = MtlMaterial(
    name: string,
    ka: Vec3, kd: Vec3, ks: Vec3, ns: real, d: real,
    mapKa: string, mapKd: string, mapKs: string, mapNs: string, mapD: string,
    mapBump: string, bump: string)

  /** MTLMaterial(): Ka 0.2, Kd 0.8, Ks 1, Ns 32, d 1, no textures. */
  function DefaultMaterial(name: string): (m: MtlMaterial)
    ensures m.name == name && m.ka == Vec3(0.2, 0.2, 0.2) && m.kd == Vec3(0.8, 0.8, 0.8)
    ensures m.ks == Vec3(1.0, 1.0, 1.0) && m.ns == 32.0 && m.d == 1.0
    ensures m.mapKa == m.mapKd == m.mapKs == m.mapNs == m.mapD == m.mapBump == m.bump == ""
  {
    MtlMaterial(name, Vec3(0.2, 0.2, 0.2), Vec3(0.8, 0.8, 0.8), Vec3(1.0, 1.0, 1.0), 32.0, 1.0,
      "", "", "", "", "", "", "")
  }

  /** parseVec3: `iss >> x >> y >> z` into a vector that starts at 0. Three
      whole numbers are read as given; a first read that fails leaves the
      zero vector, and one that stops inside its word still sets x. */
  function ParseVec3(line: string): (v: Vec3)
    ensures var ws := Args(line);
      |ws| >= 3 && NumberWord(ws[0]) && NumberWord(ws[1]) && NumberWord(ws[2]) ==>
        v == Vec3(WordValue(ws[0]), WordValue(ws[1]), WordValue(ws[2]))
    ensures var ws := Args(line);
      |ws| > 0 && NumberPrefix(ws[0]).Some? ==> v.x == NumberPrefix(ws[0]).value.value
    ensures var ws := Args(line);
      |ws| == 0 || NumberPrefix(ws[0]).None? ==> v == Zero3
  {
    var vs := ReadReals(Args(line), 3);
    ThreeNumbersRead(Args(line));
    Vec3(vs[0], vs[1], vs[2])
  }

  /** Three whole-number words are read as their values. */
  lemma ThreeNumbersRead(ws: seq<string>)
    ensures |ws| >= 3 && NumberWord(ws[0]) && NumberWord(ws[1]) && NumberWord(ws[2]) ==>
      ReadReals(ws, 3) == [WordValue(ws[0]), WordValue(ws[1]), WordValue(ws[2])]
  {
    if |ws| >= 3 && NumberWord(ws[0]) && NumberWord(ws[1]) && NumberWord(ws[2]) {
      var vs := [WordValue(ws[0]), WordValue(ws[1]), WordValue(ws[2])];
      assert ws[1..][0] == ws[1] && ws[2..][0] == ws[2];
      assert ws[1..][1..] == ws[2..] && ws[2..][1..] == ws[3..];
      assert NumberWords(ws[3..], vs[3..]);
      assert NumberWords(ws[2..], vs[2..]);
      assert NumberWords(ws[1..], vs[1..]);
      ReadRealsOfNumbers(ws, vs);
    }
  }

  /** "Kd 0.5x 0.2 0.3" sets Kd to (0.5, 0, 0): the read of y fails on the
      'x' left over from the first word, and failbit stops the rest. */
  lemma PartialReadExample(line: string)
    requires Args(line) == ["0.5x", "0.2", "0.3"]
    ensures ParseVec3(line) == Vec3(0.5, 0.0, 0.0)
  {
    PartialWordExample();
  }

  /** parseFloat: `iss >> value` into a value that starts at 0. */
  function ParseFloat(line: string): (x: real)
    ensures var ws := Args(line);
      |ws| > 0 && NumberPrefix(ws[0]).Some? ==> x == NumberPrefix(ws[0]).value.value
    ensures var ws := Args(line);
      |ws| == 0 || NumberPrefix(ws[0]).None? ==> x == 0.0
  {
    ReadReals(Args(line), 1)[0]
  }

  /** parseString: the word after the prefix, or "". */
  function ParseString(line: string): (w: string)
    ensures |Args(line)| > 0 ==> w == Args(line)[0]
    ensures |Args(line)| == 0 ==> w == ""
  {
    var ws := Args(line);
    if |ws| == 0 then "" else ws[0]
  }

  /** The loader's state while reading: the materials and the name of the one
      `currentMaterial` points at, if any. */
  datatype MtlParse = MtlParse(materials: map<string, MtlMaterial>, current: Option<string>)

  predicate CurrentExists(st: MtlParse) {
    st.current.Some? ==> st.current.value in st.materials
  }

  /** One attribute line applied to the current material; both `map_bump`
      and `bump` write map_bump, and unknown prefixes change nothing. */
  function ApplyAttribute(m: MtlMaterial, prefix: string, line: string): (r: MtlMaterial)
    ensures r.name == m.name && r.bump == m.bump
    ensures prefix == "bump" || prefix == "map_bump" ==> r == m.(mapBump := ParseString(line))
  {
    if prefix == "Ka" then m.(ka := ParseVec3(line))
    else if prefix == "Kd" then m.(kd := ParseVec3(line))
    else if prefix == "Ks" then m.(ks := ParseVec3(line))
    else if prefix == "Ns" then m.(ns := ParseFloat(line))
    else if prefix == "d" then m.(d := ParseFloat(line))
    else if prefix == "map_Ka" then m.(mapKa := ParseString(line))
    else if prefix == "map_Kd" then m.(mapKd := ParseString(line))
    else if prefix == "map_Ks" then m.(mapKs := ParseString(line))
    else if prefix == "map_Ns" then m.(mapNs := ParseString(line))
    else if prefix == "map_d" then m.(mapD := ParseString(line))
    else if prefix == "map_bump" || prefix == "bump" then m.(mapBump := ParseString(line))
    else m
  }

  /** A line skipped outright: blank after trimming, or a comment. */
  predicate Skipped(raw: string) {
    var line := TrimEnd(raw);
    |line| == 0 || line[0] == '#'
  }

  predicate IsNewMtl(raw: string) {
    !Skipped(raw) && FirstToken(TrimEnd(raw)) == "newmtl"
  }

  /** One pass of loadMTL's loop. */
  function MtlLine(st: MtlParse, raw: string): (r: MtlParse)
    requires CurrentExists(st)
    ensures CurrentExists(r)
    ensures Skipped(raw) ==> r == st
    ensures IsNewMtl(raw) ==> var n := ParseString(TrimEnd(raw));
      r.current == Some(n) && r.materials == st.materials[n := DefaultMaterial(n)]
    ensures !IsNewMtl(raw) && st.current.None? ==> r == st
    ensures !IsNewMtl(raw) && st.current.Some? ==> (r.current == st.current
      && r.materials.Keys == st.materials.Keys
      && forall k :: k in st.materials && k != st.current.value ==> r.materials[k] == st.materials[k])
  {
    var line := TrimEnd(raw);
    if |line| == 0 || line[0] == '#' then st
    else
      var prefix := FirstToken(line);
      if prefix == "newmtl" then
        var n := ParseString(line);
        MtlParse(st.materials[n := DefaultMaterial(n)], Some(n))
      else if st.current.Some? then
        var c := st.current.value;
        MtlParse(st.materials[c := ApplyAttribute(st.materials[c], prefix, line)], st.current)
      else st
  }

  /** The state after the loop has read the given lines, from an empty map. */
  function MtlRead(lines: seq<string>): (r: MtlParse)
    ensures CurrentExists(r)
  {
    if |lines| == 0 then MtlParse(map[], None)
    else MtlLine(MtlRead(lines[..|lines| - 1]), lines[|lines| - 1])
  }

  /** Attribute lines before the first `newmtl` are ignored: without any
      `newmtl` line the file yields no material. */
  lemma {:induction false} NoNewMtlNoMaterials(lines: seq<string>)
    requires forall k :: 0 <= k < |lines| ==> !IsNewMtl(lines[k])
    ensures MtlRead(lines) == MtlParse(map[], None)
  {
    if |lines| > 0 {
      NoNewMtlNoMaterials(lines[..|lines| - 1]);
    }
  }

  /** The struct's `bump` field is never written by any line. */
  lemma {:induction false} BumpNeverWritten(lines: seq<string>)
    ensures forall k :: k in MtlRead(lines).materials ==> MtlRead(lines).materials[k].bump == ""
  {
    if |lines| > 0 {
      BumpNeverWritten(lines[..|lines| - 1]);
    }
  }

  /** Every material is stored under its own name. */
  lemma {:induction false} StoredUnderOwnName(lines: seq<string>)
    ensures forall k :: k in MtlRead(lines).materials ==> MtlRead(lines).materials[k].name == k
  {
    if |lines| > 0 {
      StoredUnderOwnName(lines[..|lines| - 1]);
    }
  }

  /** Redeclaring a name discards what was read for it before: right after a
      `newmtl N` line, N holds exactly the defaults. */
  lemma RedeclarationResets(lines: seq<string>, raw: string)
    requires IsNewMtl(raw)
    ensures var n := ParseString(TrimEnd(raw));
      MtlRead(lines + [raw]).materials[n] == DefaultMaterial(n)
  {
    assert (lines + [raw])[..|lines|] == lines;
  }

  class MTLLoader {
    var materials: map<string, MtlMaterial>
    var basePath: string

    constructor ()
      ensures materials == map[] && basePath == ""
    {
      materials := map[];
      basePath := "";
    }

    /** loadMTL: false, with nothing changed, when the file cannot be opened;
        otherwise the old materials are dropped and the file's are read. */
    method LoadMTL(fs: FileSystem, path: string) returns (ok: bool)
      modifies this
      ensures ok <==> path in fs
      ensures !ok ==> materials == old(materials) && basePath == old(basePath)
      ensures ok ==> basePath == DirectoryWithSeparator(path) && materials == MtlRead(fs[path]).materials
    {
      if path !in fs {
        return false;
      }
      basePath := DirectoryWithSeparator(path);
      materials := map[];
      var lines := fs[path];
      var current: Option<string> := None;
      var i := 0;
      while i < |lines|
        invariant 0 <= i <= |lines|
        invariant MtlParse(materials, current) == MtlRead(lines[..i])
        invariant basePath == DirectoryWithSeparator(path)
      {
        var line := TrimEnd(lines[i]);
        assert lines[..i + 1][..i] == lines[..i];
        if |line| == 0 || line[0] == '#' {
          i := i + 1;
          continue;
        }
        var prefix := FirstToken(line);
        if prefix == "newmtl" {
          var materialName := ParseString(line);
          materials := materials[materialName := DefaultMaterial(materialName)];
          current := Some(materialName);
        } else if current.Some? {
          var c := current.value;
          materials := materials[c := ApplyAttribute(materials[c], prefix, line)];
        }
        i := i + 1;
      }
      assert lines[..i] == lines;
      return true;
    }

    /** The named material, or none (a null pointer in the source). */
    function GetMaterial(name: string): (r: Option<MtlMaterial>)
      reads this
      ensures r.Some? <==> name in materials
      ensures r.Some? ==> r.value == materials[name]
    {
      if name in materials then Some(materials[name]) else None
    }

    /** Every name once, in the map's ascending order. */
    function GetMaterialNames(): (names: seq<string>)
      reads this
      ensures |names| == GetMaterialCount()
      ensures forall n :: n in names <==> n in materials
      ensures StrictlySorted(names)
    {
      SortedStrings(materials.Keys)
    }

    function GetMaterialCount(): (n: nat)
      reads this
      ensures n == |materials.Keys|
    {
      |materials|
    }

    method Clear()
      modifies this
      ensures materials == map[] && basePath == ""
    {
      materials := map[];
      basePath := "";
    }

    function GetBasePath(): (p: string)
      reads this
      ensures p == basePath
    {
      basePath
    }
  }
}
