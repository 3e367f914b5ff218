/** Selecting files out of the `game.assets` tar archive, and the material
    loop of `load_model`.  The archive is its ordered list of entries; tar
    parsing, opening files and image decoding are outside the model. */
module Assets {
  import opened Lang

  newtype byte = x: int | 0 <= x < 256

  /** Path component standing for the root directory of an absolute path. */
  const RootDir := "/"

  /** One archive entry: its path as a list of components, and its contents. */
  datatype Entry = Entry(path: seq<string>, contents: seq<byte>)

  /** Which entries a lookup accepts. */
  datatype Selector =
      /** parent directory exactly `folder`, file name `fileName` */
    | InFolder(folder: string, fileName: string)
      /** the whole path */
    | ExactPath(components: seq<string>)

  predicate Accepts(s: Selector, path: seq<string>) {
    match s
    case InFolder(folder, fileName) => path == [folder, fileName]
    case ExactPath(components) => path == components
  }

  /** The position of the first accepted entry, in archive order. */
  function FirstMatch(archive: seq<Entry>, s: Selector): (r: Option<nat>)
    ensures r.Some? ==> r.value < |archive| && Accepts(s, archive[r.value].path)
    ensures r.Some? ==> forall j :: 0 <= j < r.value ==> !Accepts(s, archive[j].path)
    ensures r.None? <==> forall j :: 0 <= j < |archive| ==> !Accepts(s, archive[j].path)
  {
    if |archive| == 0 then None
    else if Accepts(s, archive[0].path) then Some(0)
    else match FirstMatch(archive[1..], s)
      case None => None
      case Some(i) => Some(i + 1)
  }

  /** The bytes a lookup yields: those of the first accepted entry, or none. */
  function Selected(archive: seq<Entry>, s: Selector): seq<byte> {
    match FirstMatch(archive, s)
    case Some(i) => archive[i].contents
    case None => []
  }

  /** An accepted entry with no accepted entry before it is the one selected. */
  lemma SelectedIsFirst(archive: seq<Entry>, s: Selector, i: nat)
    requires i < |archive| && Accepts(s, archive[i].path)
    requires forall j :: 0 <= j < i ==> !Accepts(s, archive[j].path)
    ensures FirstMatch(archive, s) == Some(i)
    ensures Selected(archive, s) == archive[i].contents
  {}

  /** Entries after an accepted one are never read; without an accepted entry
      in front, the lookup is that of the rest. */
  lemma SelectedAppend(front: seq<Entry>, back: seq<Entry>, s: Selector)
    ensures Selected(front + back, s)
            == if FirstMatch(front, s).Some? then Selected(front, s) else Selected(back, s)
  {
    var whole := front + back;
    match FirstMatch(front, s)
    case Some(i) =>
      assert whole[i] == front[i];
      assert forall j :: 0 <= j < i ==> whole[j] == front[j];
      SelectedIsFirst(whole, s, i);
    case None =>
      assert forall j :: 0 <= j < |front| ==> whole[j] == front[j];
      match FirstMatch(back, s)
      case Some(k) =>
        assert whole[|front| + k] == back[k];
        assert forall j :: |front| <= j < |front| + k ==> whole[j] == back[j - |front|];
        SelectedIsFirst(whole, s, |front| + k);
      case None =>
        assert forall j :: |front| <= j < |whole| ==> whole[j] == back[j - |front|];
        assert FirstMatch(whole, s).None?;
  }

  /** The scanning loop shared by the three lookups: walk the entries in
      order, copy the bytes of the first accepted one and stop. */
  method Scan(archive: seq<Entry>, s: Selector) returns (bytes: seq<byte>)
    ensures bytes == Selected(archive, s)
  {
    bytes := [];
    var i := 0;
    while i < |archive|
      invariant 0 <= i <= |archive|
      invariant forall j :: 0 <= j < i ==> !Accepts(s, archive[j].path)
      invariant bytes == []
    {
      var entry := archive[i];
      if Accepts(s, entry.path) {
        var k := 0;
        while k < |entry.contents|
          invariant 0 <= k <= |entry.contents|
          invariant bytes == entry.contents[..k]
        {
          bytes := bytes + [entry.contents[k]];
          k := k + 1;
        }
        SelectedIsFirst(archive, s, i);
        return;
      }
      i := i + 1;
    }
  }

  /** `load_texture`'s lookup: the entry `textures/<fileName>`. */
  method LoadTextureBytes(archive: seq<Entry>, fileName: string) returns (bytes: seq<byte>)
    ensures bytes == Selected(archive, InFolder("textures", fileName))
  {
    bytes := Scan(archive, InFolder("textures", fileName));
  }

  /** `read_game_assets`: the entry whose whole path is `path`; no bytes when
      there is none. */
  method ReadGameAssets(archive: seq<Entry>, path: seq<string>) returns (bytes: seq<byte>)
    ensures bytes == Selected(archive, ExactPath(path))
  {
    bytes := Scan(archive, ExactPath(path));
  }

  datatype LoadError =
    | ModelNotFound(model: string)
    | MissingTexture(material: string)
    | UndecodableTexture(fileName: string)

  /** `load_model`'s lookup of `res/<fileName>`; an empty text stops the load. */
  method LoadModelText(archive: seq<Entry>, fileName: string) returns (r: Result<seq<byte>, LoadError>)
    ensures r.Failure? <==> Selected(archive, InFolder("res", fileName)) == []
    ensures r.Failure? ==> r.error == ModelNotFound(fileName)
    ensures r.Success? ==> r.value == Selected(archive, InFolder("res", fileName))
  {
    var text := Scan(archive, InFolder("res", fileName));
    if text == [] {
      return Failure(ModelNotFound(fileName));
    }
    return Success(text);
  }

  /** Both ways the model text can be missing stop the load: no entry, or an
      empty first entry. */
  lemma ModelTextMissing(archive: seq<Entry>, fileName: string)
    ensures (forall j :: 0 <= j < |archive| ==> archive[j].path != ["res", fileName])
            ==> Selected(archive, InFolder("res", fileName)) == []
    ensures forall i :: 0 <= i < |archive| && archive[i].path == ["res", fileName] && archive[i].contents == []
                        && (forall j :: 0 <= j < i ==> archive[j].path != ["res", fileName])
                        ==> Selected(archive, InFolder("res", fileName)) == []
  {
    forall i | 0 <= i < |archive| && archive[i].path == ["res", fileName] && archive[i].contents == []
               && (forall j :: 0 <= j < i ==> archive[j].path != ["res", fileName])
      ensures Selected(archive, InFolder("res", fileName)) == []
    {
      SelectedIsFirst(archive, InFolder("res", fileName), i);
    }
  }

  /** The path the material-library callback asks for: `p` pushed onto `res`,
      where pushing an absolute path replaces the base. */
  function MaterialLibraryPath(p: seq<string>): seq<string> {
    if |p| > 0 && p[0] == RootDir then p else ["res"] + p
  }

  /** The material-library callback's read. */
  method LoadMaterialLibrary(archive: seq<Entry>, p: seq<string>) returns (bytes: seq<byte>)
    ensures bytes == Selected(archive, ExactPath(MaterialLibraryPath(p)))
  {
    bytes := ReadGameAssets(archive, MaterialLibraryPath(p));
  }

  // ---------------------------------------------------------------------
  // Materials.

  /** A material as the OBJ/MTL parser reports it. */
  datatype ObjMaterial = ObjMaterial(name: string, diffuseTexture: Option<string>, normalTexture: Option<string>)

  /** What `Texture::from_bytes` is given: the file name it is labelled with, the bytes and whether
      the texture is a normal map. */
  datatype TextureSource = TextureSource(fileName: string, bytes: seq<byte>, isNormalMap: bool)

  datatype Material = Material(name: string, diffuse: TextureSource, normal: TextureSource)

  function TextureFor(archive: seq<Entry>, fileName: string, isNormalMap: bool): TextureSource {
    TextureSource(fileName, Selected(archive, InFolder("textures", fileName)), isNormalMap)
  }

  /** One material, in the order `load_model` works: the diffuse name must be
      present and its texture must decode, then the same for the normal map.
      `decodes` says which sources `Texture::from_bytes` accepts. */
  function MaterialFor(archive: seq<Entry>, decodes: TextureSource -> bool, m: ObjMaterial): Result<Material, LoadError> {
    if m.diffuseTexture.None? then Failure(MissingTexture(m.name))
    else if !decodes(TextureFor(archive, m.diffuseTexture.value, false)) then Failure(UndecodableTexture(m.diffuseTexture.value))
    else if m.normalTexture.None? then Failure(MissingTexture(m.name))
    else if !decodes(TextureFor(archive, m.normalTexture.value, true)) then Failure(UndecodableTexture(m.normalTexture.value))
    else Success(Material(m.name, TextureFor(archive, m.diffuseTexture.value, false),
                          TextureFor(archive, m.normalTexture.value, true)))
  }

  /** The materials in order; the first failing one stops the load. */
  function MaterialsFor(archive: seq<Entry>, decodes: TextureSource -> bool, mats: seq<ObjMaterial>): Result<seq<Material>, LoadError> {
    if |mats| == 0 then Success([])
    else match MaterialsFor(archive, decodes, mats[..|mats| - 1])
      case Failure(e) => Failure(e)
      case Success(done) =>
        match MaterialFor(archive, decodes, mats[|mats| - 1])
        case Failure(e) => Failure(e)
        case Success(m) => Success(done + [m])
  }

  /** Both texture names are present and both textures decode. */
  predicate Loadable(archive: seq<Entry>, decodes: TextureSource -> bool, m: ObjMaterial) {
    && m.diffuseTexture.Some? && decodes(TextureFor(archive, m.diffuseTexture.value, false))
    && m.normalTexture.Some? && decodes(TextureFor(archive, m.normalTexture.value, true))
  }

  /** Loading the materials succeeds exactly when every material names both its
      textures and both decode; then material i is built from `mats[i]`, its
      diffuse texture read as a colour map and its normal texture as a normal map. */
  lemma {:induction false} MaterialsSucceed(archive: seq<Entry>, decodes: TextureSource -> bool, mats: seq<ObjMaterial>)
    ensures MaterialsFor(archive, decodes, mats).Success? <==> forall i :: 0 <= i < |mats| ==> Loadable(archive, decodes, mats[i])
    ensures MaterialsFor(archive, decodes, mats).Success? ==>
              var ms := MaterialsFor(archive, decodes, mats).value;
              && |ms| == |mats|
              && forall i :: 0 <= i < |mats| ==>
                   ms[i] == Material(mats[i].name, TextureFor(archive, mats[i].diffuseTexture.value, false),
                                     TextureFor(archive, mats[i].normalTexture.value, true))
  {
    if |mats| > 0 {
      var front := mats[..|mats| - 1];
      MaterialsSucceed(archive, decodes, front);
      assert forall i :: 0 <= i < |front| ==> front[i] == mats[i];
    }
  }

  /** When some material cannot be loaded, the load fails with the error of
      the first such material. */
  lemma {:induction false} MaterialsFailOnFirst(archive: seq<Entry>, decodes: TextureSource -> bool, mats: seq<ObjMaterial>, k: nat)
    requires k < |mats| && !Loadable(archive, decodes, mats[k])
    requires forall i :: 0 <= i < k ==> Loadable(archive, decodes, mats[i])
    ensures MaterialFor(archive, decodes, mats[k]).Failure?
    ensures MaterialsFor(archive, decodes, mats) == Failure(MaterialFor(archive, decodes, mats[k]).error)
  {
    var front := mats[..|mats| - 1];
    assert forall i :: 0 <= i < |front| ==> front[i] == mats[i];
    if k < |mats| - 1 {
      MaterialsFailOnFirst(archive, decodes, front, k);
    } else {
      MaterialsSucceed(archive, decodes, front);
    }
  }

  /** Which error a material that cannot be loaded gives: a missing name
      reports the material, an undecodable texture reports its file; the
      diffuse texture is looked at first. */
  lemma MaterialError(archive: seq<Entry>, decodes: TextureSource -> bool, m: ObjMaterial)
    requires !Loadable(archive, decodes, m)
    ensures MaterialFor(archive, decodes, m).Failure?
    ensures var e := MaterialFor(archive, decodes, m).error;
            || (e == MissingTexture(m.name) && (m.diffuseTexture.None? || m.normalTexture.None?))
            || (e.UndecodableTexture?
                && ((m.diffuseTexture == Some(e.fileName) && !decodes(TextureFor(archive, e.fileName, false)))
                    || (m.normalTexture == Some(e.fileName) && !decodes(TextureFor(archive, e.fileName, true)))))
    ensures m.diffuseTexture.None? ==> MaterialFor(archive, decodes, m) == Failure(MissingTexture(m.name))
    ensures m.diffuseTexture.Some? && !decodes(TextureFor(archive, m.diffuseTexture.value, false))
            ==> MaterialFor(archive, decodes, m) == Failure(UndecodableTexture(m.diffuseTexture.value))
  {}

  /** A named texture that no `textures/` entry holds is decoded from no bytes;
      when the decoder rejects empty input, the material fails on it. */
  lemma AbsentDiffuseTexture(archive: seq<Entry>, decodes: TextureSource -> bool, m: ObjMaterial)
    requires m.diffuseTexture.Some?
    requires forall j :: 0 <= j < |archive| ==> archive[j].path != ["textures", m.diffuseTexture.value]
    requires !decodes(TextureSource(m.diffuseTexture.value, [], false))
    ensures MaterialFor(archive, decodes, m) == Failure(UndecodableTexture(m.diffuseTexture.value))
  {
    assert FirstMatch(archive, InFolder("textures", m.diffuseTexture.value)).None?;
  }

  /** The material loop of `load_model`. */
  method LoadMaterials(archive: seq<Entry>, decodes: TextureSource -> bool, mats: seq<ObjMaterial>)
    returns (r: Result<seq<Material>, LoadError>)
    ensures r == MaterialsFor(archive, decodes, mats)
  {
    var materials: seq<Material> := [];
    var i := 0;
    while i < |mats|
      invariant 0 <= i <= |mats|
      invariant MaterialsFor(archive, decodes, mats[..i]) == Success(materials)
    {
      var mat := mats[i];
      assert mats[..i + 1][..i] == mats[..i];
      if mat.diffuseTexture.None? {
        FailureStays(archive, decodes, mats, i + 1);
        return Failure(MissingTexture(mat.name));
      }
      var diffuseBytes := LoadTextureBytes(archive, mat.diffuseTexture.value);
      var diffuse := TextureSource(mat.diffuseTexture.value, diffuseBytes, false);
      if !decodes(diffuse) {
        FailureStays(archive, decodes, mats, i + 1);
        return Failure(UndecodableTexture(mat.diffuseTexture.value));
      }
      if mat.normalTexture.None? {
        FailureStays(archive, decodes, mats, i + 1);
        return Failure(MissingTexture(mat.name));
      }
      var normalBytes := LoadTextureBytes(archive, mat.normalTexture.value);
      var normal := TextureSource(mat.normalTexture.value, normalBytes, true);
      if !decodes(normal) {
        FailureStays(archive, decodes, mats, i + 1);
        return Failure(UndecodableTexture(mat.normalTexture.value));
      }
      materials := materials + [Material(mat.name, diffuse, normal)];
      i := i + 1;
    }
    assert mats[..i] == mats;
    return Success(materials);
  }

  /** A failure on a prefix is the failure of the whole list. */
  lemma {:induction false} FailureStays(archive: seq<Entry>, decodes: TextureSource -> bool, mats: seq<ObjMaterial>, n: nat)
    requires n <= |mats| && MaterialsFor(archive, decodes, mats[..n]).Failure?
    ensures MaterialsFor(archive, decodes, mats) == MaterialsFor(archive, decodes, mats[..n])
    decreases |mats| - n
  {
    if n < |mats| {
      assert mats[..n + 1][..n] == mats[..n];
      FailureStays(archive, decodes, mats, n + 1);
    } else {
      assert mats[..n] == mats;
    }
  }
}
