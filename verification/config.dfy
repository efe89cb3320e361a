/**
 * The scene configuration (src/config.rs): textures, materials and objects read from a
 * TOML table into models, with textures kept in a storage that hands out ids. Textures
 * are read first, then materials (which may only name textures already stored), then
 * objects (which may only name materials already stored). Whether a file exists is
 * given by `fileExists`.
 */
module Config {
  import opened Wrappers
  import opened Decimal
  import opened ConfigValues
  import Vectors
  import Colors

  /** `TextureStorageId`: a texture pushed without a name gets a number. */
  datatype TextureId = Anonymous(n: nat) | Named(name: string)

  /** `TextureModel`. */
  datatype TextureModel =
    | SolidColorModel(color: Colors.Color)
    | CheckerboardModel(scale: real, color1: TextureId, color2: TextureId)
    | ImageModel(path: string)

  /** `MaterialModel`. */
  datatype MaterialModel =
    | LambertianModel(texture: TextureId)
    | DiffuseLightModel(texture: TextureId)
    | IsotropicModel(texture: TextureId)
    | MetalModel(albedo: Colors.Color, fuzz: real)
    | DielectricModel(refractiveIndex: real)

  /** `ObjectModel`; the material is named by its key in the material storage. */
  datatype ObjectModel =
    | SphereModel(center: Vectors.Point3, radius: real, material: string)
    | ParallelogramModel(corner: Vectors.Point3, vectors: (Vectors.Vec3, Vectors.Vec3), material: string)
    | TriangleModel(points: (Vectors.Point3, Vectors.Point3, Vectors.Point3), material: string)
    | DiscModel(center: Vectors.Point3, vectors: (Vectors.Vec3, Vectors.Vec3), material: string)

  /** Every texture a checkerboard refers to is stored. */
  predicate TextureResolved(textures: map<TextureId, TextureModel>, t: TextureModel)
  {
    t.CheckerboardModel? ==> t.color1 in textures && t.color2 in textures
  }

  /** The texture a textured material refers to is stored. */
  predicate MaterialResolved(textures: map<TextureId, TextureModel>, m: MaterialModel)
  {
    (m.LambertianModel? || m.DiffuseLightModel? || m.IsotropicModel?) ==> m.texture in textures
  }

  /**
   * `TextureModel::as_texture` has an implementation for the texture: an image is
   * `todo!()`, which panics with `TodoMessage`.
   */
  predicate Implemented(t: TextureModel)
  {
    !t.ImageModel?
  }

  /** The message of a `todo!()` panic. */
  const TodoMessage := "not yet implemented"

  /**
   * `MaterialModel::as_material` builds the material without panicking: a metal goes
   * through `Metal::with_fuzz`, which asserts a fuzz in `0..=1` (`FuzzMessage`).
   */
  predicate FuzzInRange(m: MaterialModel)
  {
    m.MetalModel? ==> 0.0 <= m.fuzz <= 1.0
  }

  /** The message of `Metal::with_fuzz`'s assertion. */
  const FuzzMessage := "Invalid fuzz value (expected 0.0..=1.0)"

  /** The names of the named textures. */
  function NamedKeys(textures: map<TextureId, TextureModel>): set<string>
  {
    set id | id in textures && id.Named? :: id.name
  }

  /** The keys of a TOML table. */
  function Keys(table: TomlTable): set<string>
  {
    set i | 0 <= i < |table| :: table[i].0
  }

  /** The storage after pushing `pushed` anonymously, in order, from id `counter + 1` on. */
  function Pushed(textures: map<TextureId, TextureModel>, counter: nat, pushed: seq<TextureModel>)
    : (m: map<TextureId, TextureModel>)
    decreases |pushed|
  {
    if pushed == [] then textures
    else Pushed(textures[Anonymous(counter + 1) := pushed[0]], counter + 1, pushed[1..])
  }

  /** Pushing keeps every key and every named texture, and adds only the anonymous ids handed out. */
  lemma {:induction false} PushedKeeps(textures: map<TextureId, TextureModel>, counter: nat, pushed: seq<TextureModel>)
    ensures textures.Keys <= Pushed(textures, counter, pushed).Keys
    ensures forall id | id in textures && id.Named? :: Pushed(textures, counter, pushed)[id] == textures[id]
    ensures forall id | id in Pushed(textures, counter, pushed) && id !in textures ::
              id.Anonymous? && counter < id.n <= counter + |pushed|
    decreases |pushed|
  {
    if pushed != [] {
      PushedKeeps(textures[Anonymous(counter + 1) := pushed[0]], counter + 1, pushed[1..]);
    }
  }

  /** Pushing nothing leaves the textures as they were. */
  lemma PushedNone(textures: map<TextureId, TextureModel>, counter: nat, pushed: seq<TextureModel>)
    requires pushed == []
    ensures Pushed(textures, counter, pushed) == textures
  {
  }

  /** Pushing one texture stores it under the next anonymous id. */
  lemma PushedOne(textures: map<TextureId, TextureModel>, counter: nat, t: TextureModel, id: TextureId,
                  after: map<TextureId, TextureModel>, pushed: seq<TextureModel>)
    requires id == Anonymous(counter + 1) && after == textures[id := t] && pushed == [t]
    ensures after == Pushed(textures, counter, pushed)
  {
    assert pushed[1..] == [];
  }

  /** Pushing a one-texture sequence stores its texture under the next anonymous id. */
  lemma PushedFirst(textures: map<TextureId, TextureModel>, counter: nat, pushed: seq<TextureModel>,
                    id: TextureId, after: map<TextureId, TextureModel>)
    requires |pushed| == 1 && id == Anonymous(counter + 1) && after == textures[id := pushed[0]]
    ensures after == Pushed(textures, counter, pushed)
  {
    assert pushed[1..] == [];
  }

  /** Pushing two textures stores them under the next two anonymous ids, in order. */
  lemma PushedTwo(textures: map<TextureId, TextureModel>, counter: nat, t: TextureModel, u: TextureModel,
                  id1: TextureId, id2: TextureId, middle: map<TextureId, TextureModel>,
                  after: map<TextureId, TextureModel>, pushed: seq<TextureModel>)
    requires id1 == Anonymous(counter + 1) && middle == textures[id1 := t]
    requires id2 == Anonymous(counter + 2) && after == middle[id2 := u]
    requires pushed == [t, u]
    ensures after == Pushed(textures, counter, pushed)
  {
    assert pushed[1..] == [u];
    PushedOne(middle, counter + 1, u, id2, after, [u]);
  }

  /**
   * `TextureStorage`: the stored textures and the last anonymous id handed out. Anonymous
   * ids never run ahead of the counter, and every checkerboard's textures are stored.
   */
  class TextureStorage {
    var textures: map<TextureId, TextureModel>
    var counter: nat

    ghost predicate Valid()
      reads this
    {
      (forall id | id in textures && id.Anonymous? :: id.n <= counter) &&
      (forall id {:trigger textures[id]} | id in textures :: TextureResolved(textures, textures[id]))
    }

    /** `TextureStorage::new` and `with_capacity`: nothing stored, no id handed out. */
    constructor ()
      ensures Valid() && textures == map[] && counter == 0
    {
      textures := map[];
      counter := 0;
    }

    /** `gen_id`: the next id, one more than the last; the first is 1. */
    method GenId() returns (id: nat)
      requires Valid()
      modifies this
      ensures Valid()
      ensures id == old(counter) + 1 && counter == id && textures == old(textures)
    {
      counter := counter + 1;
      id := counter;
    }

    /**
     * `push_anon`: stores the texture under a fresh anonymous id, which it returns. Storing
     * builds the texture with `as_texture`, which panics on an image.
     */
    method PushAnon(texture: TextureModel) returns (id: TextureId)
      requires Valid() && TextureResolved(textures, texture) && Implemented(texture)
      modifies this
      ensures Valid()
      ensures id == Anonymous(old(counter) + 1) && id !in old(textures)
      ensures textures == old(textures)[id := texture] && counter == old(counter) + 1
    {
      var n := GenId();
      id := Anonymous(n);
      textures := textures[id := texture];
    }

    /**
     * `push_named`: stores the texture under its name, replacing any texture of that name.
     * Like `push_anon`, it panics on an image.
     */
    method PushNamed(key: string, texture: TextureModel) returns (id: TextureId)
      requires Valid() && TextureResolved(textures, texture) && Implemented(texture)
      modifies this
      ensures Valid()
      ensures id == Named(key) && textures == old(textures)[id := texture] && counter == old(counter)
    {
      id := Named(key);
      textures := textures[id := texture];
    }

    /** `contains_named_key`. */
    function ContainsNamedKey(name: string): (b: bool)
      reads this
      ensures b <==> name in NamedKeys(textures)
    {
      Named(name) in textures
    }

    /** `get`. */
    function Get(key: TextureId): (r: Option<TextureModel>)
      reads this
      ensures r.Some? <==> key in textures
      ensures r.Some? ==> r.value == textures[key]
    {
      if key in textures then Some(textures[key]) else None
    }
  }

  datatype TextureKind = SolidColorKind | CheckerboardKind | ImageKind
  datatype MaterialKind =
    LambertianKind | MetalKind | LightKind | DielectricKind | IsotropicKind | SolidColorShortcut | ColoredLightShortcut
  datatype ObjectKind = SphereKind | ParallelogramKind | DiscKind

  /** The texture type names, matched on their upper-case form. */
  function TextureKindOf(typeName: string): (k: Option<TextureKind>)
    ensures k.None? <==> Upper(typeName) !in {"COLOR", "SOLIDCOLOR", "SOLID_COLOR", "CHECKERBOARD", "CHECKER", "IMAGE"}
  {
    var u := Upper(typeName);
    if u == "COLOR" || u == "SOLIDCOLOR" || u == "SOLID_COLOR" then Some(SolidColorKind)
    else if u == "CHECKERBOARD" || u == "CHECKER" then Some(CheckerboardKind)
    else if u == "IMAGE" then Some(ImageKind)
    else None
  }

  /** The material type names, matched on their upper-case form. */
  function MaterialKindOf(typeName: string): (k: Option<MaterialKind>)
    ensures k.None? <==> Upper(typeName) !in {"LAMBERTIAN", "METAL", "METALLIC", "FUZZY", "LIGHT", "LIGHTSOURCE",
                                              "DIFFUSELIGHT", "DIELECTRIC", "ISOTROPIC", "SOLIDCOLOR", "COLOREDLIGHT"}
  {
    var u := Upper(typeName);
    if u == "LAMBERTIAN" then Some(LambertianKind)
    else if u == "METAL" || u == "METALLIC" || u == "FUZZY" then Some(MetalKind)
    else if u == "LIGHT" || u == "LIGHTSOURCE" || u == "DIFFUSELIGHT" then Some(LightKind)
    else if u == "DIELECTRIC" then Some(DielectricKind)
    else if u == "ISOTROPIC" then Some(IsotropicKind)
    else if u == "SOLIDCOLOR" then Some(SolidColorShortcut)
    else if u == "COLOREDLIGHT" then Some(ColoredLightShortcut)
    else None
  }

  /** The object type names, matched on their upper-case form. */
  function ObjectKindOf(typeName: string): (k: Option<ObjectKind>)
    ensures k.None? <==> Upper(typeName) !in {"SPHERE", "PARALLELOGRAM", "DISC"}
  {
    var u := Upper(typeName);
    if u == "SPHERE" then Some(SphereKind)
    else if u == "PARALLELOGRAM" then Some(ParallelogramKind)
    else if u == "DISC" then Some(DiscKind)
    else None
  }

  /** Type names are matched without regard to ASCII case. */
  lemma KindsIgnoreCase(s: string, t: string)
    requires SameIgnoringCase(s, t)
    ensures TextureKindOf(s) == TextureKindOf(t)
    ensures MaterialKindOf(s) == MaterialKindOf(t)
    ensures ObjectKindOf(s) == ObjectKindOf(t)
  {
    UpperIgnoresCase(s, t);
  }

  /** "triangle", which the help text offers, is not an object type the parser accepts. */
  lemma TriangleRejected()
    ensures ObjectKindOf("triangle") == None
  {
    assert |Upper("triangle")| == 8;
  }

  /** What a parse returns, and the textures it pushed anonymously on the way, in order. */
  datatype Parsed<T> = Parsed(result: Result<T, ConfigError>, pushed: seq<TextureModel>)

  function TextureParent(name: string): string
  {
    "config.textures." + name
  }

  /** The solid colour branch of `TextureModel::parse`: a `color` field. */
  function SolidTexture(name: string, table: TomlTable): (r: Result<TextureModel, ConfigError>)
    ensures r.Ok? ==> Get(table, "color").Some? && ParseColor(Get(table, "color").value, Dotted(TextureParent(name), "color")).Ok? &&
                      r.value == SolidColorModel(ParseColor(Get(table, "color").value, Dotted(TextureParent(name), "color")).value)
  {
    var parent := TextureParent(name);
    var value :- RequireValue(table, "color", parent);
    var color :- ParseColor(value, Dotted(parent, "color"));
    Ok(SolidColorModel(color))
  }

  /** The raw fields of a checkerboard: its scale and the values of its two colours. */
  datatype CheckerSpec = CheckerSpec(scale: real, first: Value, second: Value)

  /**
   * The fields of a checkerboard: a float-like `scale` and a `textures` array of exactly
   * two values.
   */
  function CheckerFields(name: string, table: TomlTable): (r: Result<CheckerSpec, ConfigError>)
    ensures r.Ok? ==> Get(table, "scale").Some? && IsFloatLike(Get(table, "scale").value) &&
                      r.value.scale == Number(Get(table, "scale").value)
    ensures r.Ok? ==> Get(table, "textures").Some? && Get(table, "textures").value.Array? &&
                      Get(table, "textures").value.items == [r.value.first, r.value.second]
    ensures Get(table, "scale").Some? && IsFloatLike(Get(table, "scale").value) &&
            Get(table, "textures").Some? && Get(table, "textures").value.Array? &&
            |Get(table, "textures").value.items| != 2 ==>
              r == Err(KeyError(Dotted(TextureParent(name), "textures"), NotPair))
  {
    var parent := TextureParent(name);
    var scaleValue :- RequireValue(table, "scale", parent);
    var scale :- ParseFloatlike(scaleValue, Dotted(parent, "scale"));
    var texturesValue :- RequireValue(table, "textures", parent);
    var textures :- ParseArray(texturesValue, Dotted(parent, "textures"));
    if |textures| != 2 then Err(KeyError(Dotted(parent, "textures"), NotPair))
    else Ok(CheckerSpec(scale, textures[0], textures[1]))
  }

  /**
   * The checkerboard branch of `TextureModel::parse`: each of the two colours becomes an
   * anonymous solid colour texture, pushed as soon as it is read; the checkerboard names
   * the two new ids.
   */
  function CheckerTexture(name: string, table: TomlTable, counter: nat): (p: Parsed<TextureModel>)
    ensures p.result.Ok? ==>
              CheckerFields(name, table).Ok? && |p.pushed| == 2 &&
              p.result.value == CheckerboardModel(CheckerFields(name, table).value.scale, Anonymous(counter + 1), Anonymous(counter + 2))
    ensures p.result.Err? ==> |p.pushed| <= 1
    ensures forall i | 0 <= i < |p.pushed| :: p.pushed[i].SolidColorModel?
  {
    var fields := CheckerFields(name, table);
    if fields.Err? then Parsed(Err(fields.error), [])
    else CheckerColors(TextureParent(name), fields.value, counter, ParseColor)
  }

  /** How a colour value is read: `parse_color`, given as a parameter to the checkerboard steps. */
  type ColorParser = (Value, string) -> Result<Colors.Color, ConfigError>

  /**
   * The two colours of a checkerboard, read in order with `parse`: each becomes a solid
   * colour texture as soon as it is read, and the checkerboard names the two new ids.
   */
  function CheckerColors(parent: string, fields: CheckerSpec, counter: nat, parse: ColorParser): (p: Parsed<TextureModel>)
    ensures p.result.Ok? ==>
              |p.pushed| == 2 && p.result.value == CheckerboardModel(fields.scale, Anonymous(counter + 1), Anonymous(counter + 2))
    ensures p.result.Err? ==> |p.pushed| <= 1
    ensures forall i | 0 <= i < |p.pushed| :: p.pushed[i].SolidColorModel?
  {
    var color1 := parse(fields.first, ElementKey(Dotted(parent, "textures"), 0));
    if color1.Err? then Parsed(Err(color1.error), [])
    else
      var color2 := parse(fields.second, ElementKey(Dotted(parent, "textures"), 1));
      if color2.Err? then Parsed(Err(color2.error), [SolidColorModel(color1.value)])
      else
        Parsed(Ok(CheckerboardModel(fields.scale, Anonymous(counter + 1), Anonymous(counter + 2))),
               [SolidColorModel(color1.value), SolidColorModel(color2.value)])
  }

  /** The outcome of `CheckerColors`, by which colour is the first that fails to read. */
  lemma CheckerColorsCases(parent: string, fields: CheckerSpec, counter: nat, parse: ColorParser,
                           color1: Result<Colors.Color, ConfigError>, color2: Result<Colors.Color, ConfigError>)
    requires color1 == parse(fields.first, ElementKey(Dotted(parent, "textures"), 0))
    requires color2 == parse(fields.second, ElementKey(Dotted(parent, "textures"), 1))
    ensures color1.Err? ==> CheckerColors(parent, fields, counter, parse) == Parsed(Err(color1.error), [])
    ensures color1.Ok? && color2.Err? ==>
              CheckerColors(parent, fields, counter, parse) == Parsed(Err(color2.error), [SolidColorModel(color1.value)])
    ensures color1.Ok? && color2.Ok? ==>
              CheckerColors(parent, fields, counter, parse) ==
              Parsed(Ok(CheckerboardModel(fields.scale, Anonymous(counter + 1), Anonymous(counter + 2))),
                     [SolidColorModel(color1.value), SolidColorModel(color2.value)])
  {
  }

  /** The image branch of `TextureModel::parse`: a `path` field naming a file that exists. */
  function ImageTexture(name: string, table: TomlTable, fileExists: string -> bool): (r: Result<TextureModel, ConfigError>)
    ensures r.Ok? ==> r.value.ImageModel? && fileExists(r.value.path)
  {
    var parent := TextureParent(name);
    var value :- RequireValue(table, "path", parent);
    var path :- ParsePathbuf(value, Dotted(parent, "path"));
    if !fileExists(path) then Err(KeyError(Dotted(parent, "path"), FileNotFound(path)))
    else Ok(ImageModel(path))
  }

  /**
   * `TextureModel::parse`: the `type` must be a string naming a texture type, in any
   * case; each type then reads its own fields. Only the checkerboard pushes textures,
   * and only solid colours.
   */
  function TextureParse(name: string, table: TomlTable, fileExists: string -> bool, counter: nat)
    : (p: Parsed<TextureModel>)
    ensures p.result.Ok? ==> Get(table, "type").Some? && Get(table, "type").value.String? &&
                             TextureKindOf(Get(table, "type").value.s).Some?
    ensures !(Get(table, "type").Some? && Get(table, "type").value.String?) ==>
              p == Parsed(Err(KeyError(Dotted(TextureParent(name), "type"), NotString)), [])
    ensures p.result.Ok? && p.result.value.CheckerboardModel? ==>
              p.result.value.color1 == Anonymous(counter + 1) && p.result.value.color2 == Anonymous(counter + 2) &&
              |p.pushed| == 2
    ensures p.result.Ok? && !p.result.value.CheckerboardModel? ==> p.pushed == []
    ensures |p.pushed| <= 2 && forall i | 0 <= i < |p.pushed| :: p.pushed[i].SolidColorModel?
  {
    var parent := TextureParent(name);
    match Get(table, "type")
    case Some(String(t)) =>
      (match TextureKindOf(t)
       case Some(SolidColorKind) => Parsed(SolidTexture(name, table), [])
       case Some(CheckerboardKind) => CheckerTexture(name, table, counter)
       case Some(ImageKind) => Parsed(ImageTexture(name, table, fileExists), [])
       case None => Parsed(Err(KeyError(Dotted(parent, "type"), UnknownTextureType)), []))
    case _ => Parsed(Err(KeyError(Dotted(parent, "type"), NotString)), [])
  }

  /**
   * `TextureModel::parse` as the source runs it, pushing into the storage as it goes: the
   * result and the new storage are those `TextureParse` describes, and a checkerboard it
   * returns refers only to stored textures.
   */
  method ParseTextureModel(name: string, table: TomlTable, storage: TextureStorage, fileExists: string -> bool)
    returns (r: Result<TextureModel, ConfigError>)
    requires storage.Valid()
    modifies storage
    ensures storage.Valid()
    ensures r == TextureParse(name, table, fileExists, old(storage.counter)).result
    ensures storage.textures == Pushed(old(storage.textures), old(storage.counter),
                                       TextureParse(name, table, fileExists, old(storage.counter)).pushed)
    ensures storage.counter == old(storage.counter) + |TextureParse(name, table, fileExists, old(storage.counter)).pushed|
    ensures r.Ok? ==> TextureResolved(storage.textures, r.value)
  {
    var parent := TextureParent(name);
    var typ := Get(table, "type");
    if !(typ.Some? && typ.value.String?) {
      return Err(KeyError(Dotted(parent, "type"), NotString));
    }
    var kind := TextureKindOf(typ.value.s);
    if kind == Some(CheckerboardKind) {
      r := ParseCheckerboard(name, table, storage);
    } else if kind == Some(SolidColorKind) {
      r := SolidTexture(name, table);
    } else if kind == Some(ImageKind) {
      r := ImageTexture(name, table, fileExists);
    } else {
      r := Err(KeyError(Dotted(parent, "type"), UnknownTextureType));
    }
  }

  /** The checkerboard branch as the source runs it: read the fields, then the two colours. */
  method ParseCheckerboard(name: string, table: TomlTable, storage: TextureStorage)
    returns (r: Result<TextureModel, ConfigError>)
    requires storage.Valid()
    modifies storage
    ensures storage.Valid()
    ensures r == CheckerTexture(name, table, old(storage.counter)).result
    ensures storage.textures == Pushed(old(storage.textures), old(storage.counter), CheckerTexture(name, table, old(storage.counter)).pushed)
    ensures storage.counter == old(storage.counter) + |CheckerTexture(name, table, old(storage.counter)).pushed|
    ensures r.Ok? ==> TextureResolved(storage.textures, r.value)
  {
    var fields := CheckerFields(name, table);
    if fields.Err? {
      PushedNone(storage.textures, storage.counter, CheckerTexture(name, table, storage.counter).pushed);
      return Err(fields.error);
    }
    r := PushCheckerColors(TextureParent(name), fields.value, ParseColor, storage);
  }

  /** Read the first colour with `parse` and push it, then the second and push it; the checkerboard names both. */
  method PushCheckerColors(parent: string, fields: CheckerSpec, parse: ColorParser, storage: TextureStorage)
    returns (r: Result<TextureModel, ConfigError>)
    requires storage.Valid()
    modifies storage
    ensures storage.Valid()
    ensures r == CheckerColors(parent, fields, old(storage.counter), parse).result
    ensures storage.textures == Pushed(old(storage.textures), old(storage.counter), CheckerColors(parent, fields, old(storage.counter), parse).pushed)
    ensures storage.counter == old(storage.counter) + |CheckerColors(parent, fields, old(storage.counter), parse).pushed|
    ensures r.Ok? ==> TextureResolved(storage.textures, r.value)
  {
    ghost var before, counter := storage.textures, storage.counter;
    ghost var spec := CheckerColors(parent, fields, counter, parse);
    var color1 := parse(fields.first, ElementKey(Dotted(parent, "textures"), 0));
    CheckerColorsCases(parent, fields, counter, parse, color1, parse(fields.second, ElementKey(Dotted(parent, "textures"), 1)));
    if color1.Err? {
      assert spec == Parsed(Err(color1.error), []);
      PushedNone(before, counter, spec.pushed);
      return Err(color1.error);
    }
    var id1 := storage.PushAnon(SolidColorModel(color1.value));
    ghost var middle := storage.textures;
    var color2 := parse(fields.second, ElementKey(Dotted(parent, "textures"), 1));
    if color2.Err? {
      assert spec == Parsed(Err(color2.error), [SolidColorModel(color1.value)]);
      PushedOne(before, counter, SolidColorModel(color1.value), id1, storage.textures, spec.pushed);
      return Err(color2.error);
    }
    var id2 := storage.PushAnon(SolidColorModel(color2.value));
    assert spec.result == Ok(CheckerboardModel(fields.scale, id1, id2));
    PushedTwo(before, counter, SolidColorModel(color1.value), SolidColorModel(color2.value),
              id1, id2, middle, storage.textures, spec.pushed);
    r := Ok(CheckerboardModel(fields.scale, id1, id2));
  }

  function MaterialParent(name: string): string
  {
    "config.materials." + name
  }

  /** A `texture` field naming a texture already stored under that name. */
  function TextureRef(name: string, table: TomlTable, named: set<string>): (r: Result<TextureId, ConfigError>)
    ensures r.Ok? ==> r.value.Named? && r.value.name in named
  {
    var parent := MaterialParent(name);
    var value :- RequireValue(table, "texture", parent);
    var n :- ParseTextureName(value, Dotted(parent, "texture"), named);
    Ok(Named(n))
  }

  /** A Metal `fuzz` above 1 is read as a percentage. */
  function ScaleFuzz(fuzz: real): (f: real)
    ensures fuzz > 1.0 ==> f == fuzz / 100.0
    ensures fuzz <= 1.0 ==> f == fuzz
  {
    if fuzz > 1.0 then fuzz / 100.0 else fuzz
  }

  /**
   * The scaled fuzz lies in the `0..=1` that `Metal::with_fuzz` accepts exactly when the
   * fuzz given lies in `0..=100`; above 100 it is still out of range.
   */
  lemma ScaleFuzzRange(fuzz: real)
    ensures 0.0 <= ScaleFuzz(fuzz) <= 1.0 <==> 0.0 <= fuzz <= 100.0
  {
  }

  /** The metal branch of `MaterialModel::parse`: a colour `albedo` and a float-like `fuzz`. */
  function MetalMaterial(name: string, table: TomlTable): (r: Result<MaterialModel, ConfigError>)
    ensures r.Ok? ==> r.value.MetalModel? && Colors.IsValid(r.value.albedo)
    ensures r.Ok? ==> Get(table, "fuzz").Some? && IsFloatLike(Get(table, "fuzz").value) &&
                      r.value.fuzz == ScaleFuzz(Number(Get(table, "fuzz").value))
  {
    var parent := MaterialParent(name);
    var albedoValue :- RequireValue(table, "albedo", parent);
    var albedo :- ParseColor(albedoValue, Dotted(parent, "albedo"));
    var fuzzValue :- RequireValue(table, "fuzz", parent);
    var fuzz :- ParseFloatlike(fuzzValue, Dotted(parent, "fuzz"));
    Ok(MetalModel(albedo, ScaleFuzz(fuzz)))
  }

  /** The dielectric branch: a float-like `refractive_index`. */
  function DielectricMaterial(name: string, table: TomlTable): (r: Result<MaterialModel, ConfigError>)
    ensures r.Ok? ==> Get(table, "refractive_index").Some? && IsFloatLike(Get(table, "refractive_index").value) &&
                      r.value == DielectricModel(Number(Get(table, "refractive_index").value))
  {
    var parent := MaterialParent(name);
    var value :- RequireValue(table, "refractive_index", parent);
    var index :- ParseFloatlike(value, Dotted(parent, "refractive_index"));
    Ok(DielectricModel(index))
  }

  /**
   * The colour of the two shortcut types: a `color` field and, for a coloured light, an
   * optional float-like `brightness` that scales it.
   */
  function ShortcutColor(name: string, table: TomlTable, withBrightness: bool): (r: Result<Colors.Color, ConfigError>)
    ensures r.Ok? ==> Get(table, "color").Some? && ParseColor(Get(table, "color").value, Dotted(MaterialParent(name), "color")).Ok?
    ensures r.Ok? && (!withBrightness || Get(table, "brightness").None?) ==>
              r.value == ParseColor(Get(table, "color").value, Dotted(MaterialParent(name), "color")).value
  {
    var parent := MaterialParent(name);
    var value :- RequireValue(table, "color", parent);
    var color :- ParseColor(value, Dotted(parent, "color"));
    if !withBrightness then Ok(color)
    else match Get(table, "brightness")
      case None => Ok(color)
      case Some(b) =>
        var brightness :- ParseFloatlike(b, Dotted(parent, "brightness"));
        Ok(Colors.SetBrightness(color, brightness))
  }

  /** Wraps a result that pushed nothing. */
  function NoPush<T>(r: Result<T, ConfigError>): (p: Parsed<T>)
    ensures p.result == r && p.pushed == []
  {
    Parsed(r, [])
  }

  /**
   * `MaterialModel::parse`: the `type` must be a string naming a material type, in any
   * case. Textured materials name a texture already stored; the two shortcut types push
   * one anonymous solid colour texture and refer to it. Nothing else is pushed.
   */
  function MaterialParse(name: string, table: TomlTable, named: set<string>, counter: nat): (p: Parsed<MaterialModel>)
    ensures p.result.Ok? ==> Get(table, "type").Some? && Get(table, "type").value.String? &&
                             MaterialKindOf(Get(table, "type").value.s).Some?
    ensures !(Get(table, "type").Some? && Get(table, "type").value.String?) ==>
              p == Parsed(Err(KeyError(Dotted(MaterialParent(name), "type"), NotString)), [])
    ensures |p.pushed| <= 1 && forall i | 0 <= i < |p.pushed| :: p.pushed[i].SolidColorModel?
    ensures p.result.Err? ==> p.pushed == []
    ensures p.result.Ok? && |p.pushed| == 1 ==>
              (p.result.value.LambertianModel? || p.result.value.DiffuseLightModel?) &&
              p.result.value.texture == Anonymous(counter + 1)
    ensures p.result.Ok? && p.pushed == [] &&
            (p.result.value.LambertianModel? || p.result.value.DiffuseLightModel? || p.result.value.IsotropicModel?) ==>
              p.result.value.texture.Named? && p.result.value.texture.name in named
  {
    var parent := MaterialParent(name);
    match Get(table, "type")
    case Some(String(t)) =>
      (match MaterialKindOf(t)
       case Some(LambertianKind) =>
         NoPush(var id :- TextureRef(name, table, named); Ok(LambertianModel(id)))
       case Some(MetalKind) => NoPush(MetalMaterial(name, table))
       case Some(LightKind) =>
         NoPush(var id :- TextureRef(name, table, named); Ok(DiffuseLightModel(id)))
       case Some(DielectricKind) => NoPush(DielectricMaterial(name, table))
       case Some(IsotropicKind) =>
         NoPush(var id :- TextureRef(name, table, named); Ok(IsotropicModel(id)))
       case Some(SolidColorShortcut) =>
         (match ShortcutColor(name, table, false)
          case Err(e) => NoPush(Err(e))
          case Ok(color) => Parsed(Ok(LambertianModel(Anonymous(counter + 1))), [SolidColorModel(color)]))
       case Some(ColoredLightShortcut) =>
         (match ShortcutColor(name, table, true)
          case Err(e) => NoPush(Err(e))
          case Ok(color) => Parsed(Ok(DiffuseLightModel(Anonymous(counter + 1))), [SolidColorModel(color)]))
       case None => NoPush(Err(KeyError(Dotted(parent, "type"), UnknownMaterialType))))
    case _ => NoPush(Err(KeyError(Dotted(parent, "type"), NotString)))
  }

  /**
   * `MaterialModel::parse` as the source runs it against the texture storage: the result
   * and the new storage are those `MaterialParse` describes for the names stored on entry,
   * and the material it returns refers only to stored textures.
   */
  method ParseMaterialModel(name: string, table: TomlTable, storage: TextureStorage)
    returns (r: Result<MaterialModel, ConfigError>)
    requires storage.Valid()
    modifies storage
    ensures storage.Valid()
    ensures r == MaterialParse(name, table, NamedKeys(old(storage.textures)), old(storage.counter)).result
    ensures storage.textures == Pushed(old(storage.textures), old(storage.counter),
                                       MaterialParse(name, table, NamedKeys(old(storage.textures)), old(storage.counter)).pushed)
    ensures storage.counter ==
            old(storage.counter) + |MaterialParse(name, table, NamedKeys(old(storage.textures)), old(storage.counter)).pushed|
    ensures r.Ok? ==> MaterialResolved(storage.textures, r.value)
  {
    var p := MaterialParse(name, table, NamedKeys(storage.textures), storage.counter);
    if p.result.Ok? && |p.pushed| == 1 {
      var id := storage.PushAnon(p.pushed[0]);
      PushedFirst(old(storage.textures), old(storage.counter), p.pushed, id, storage.textures);
      assert p.result.value.texture == id;
    } else {
      assert p.pushed == [];
      PushedNone(storage.textures, storage.counter, p.pushed);
      if p.result.Ok? && (p.result.value.LambertianModel? || p.result.value.DiffuseLightModel? || p.result.value.IsotropicModel?) {
        assert Named(p.result.value.texture.name) in storage.textures;
      }
    }
    r := p.result;
  }

  function ObjectParent(index: nat): string
  {
    "config.objects." + NatToString(index)
  }

  /** A `material` field naming a material already stored. */
  function MaterialRef(table: TomlTable, parent: string, stored: set<string>): (r: Result<string, ConfigError>)
    ensures r.Ok? ==> r.value in stored
  {
    var value :- RequireValue(table, "material", parent);
    ParseMaterialName(value, Dotted(parent, "material"), stored)
  }

  /** A `vectors` field: an array of exactly two 3-vectors. */
  function VectorPair(table: TomlTable, parent: string): (r: Result<(Vectors.Vec3, Vectors.Vec3), ConfigError>)
    ensures r.Ok? ==> Get(table, "vectors").Some? && Get(table, "vectors").value.Array? &&
                      |Get(table, "vectors").value.items| == 2
  {
    var value :- RequireValue(table, "vectors", parent);
    var vecs :- ParseArray(value, Dotted(parent, "vectors"));
    if |vecs| != 2 then Err(KeyError(Dotted(parent, "vectors"), NotPair))
    else
      var first :- Triple(vecs[0], ElementKey(Dotted(parent, "vectors"), 0), VectorShape);
      var second :- Triple(vecs[1], ElementKey(Dotted(parent, "vectors"), 1), VectorShape);
      Ok((first, second))
  }

  /**
   * `ObjectModel::parse`: the `type` must be a string naming an object type, in any case
   * (a missing or non-string type is reported at `config.materials.<index>.type`, as the
   * source words it). Every object names a material already stored; no triangle is built.
   */
  function ObjectParse(index: nat, table: TomlTable, stored: set<string>): (r: Result<ObjectModel, ConfigError>)
    ensures r.Ok? ==> r.value.material in stored && !r.value.TriangleModel?
    ensures r.Ok? ==> Get(table, "type").Some? && Get(table, "type").value.String? &&
                      ObjectKindOf(Get(table, "type").value.s).Some?
    ensures !(Get(table, "type").Some? && Get(table, "type").value.String?) ==>
              r == Err(KeyError(Dotted("config.materials." + NatToString(index), "type"), NotString))
  {
    var parent := ObjectParent(index);
    match Get(table, "type")
    case Some(String(t)) =>
      (match ObjectKindOf(t)
       case Some(SphereKind) =>
         var centerValue :- RequireValue(table, "center", parent);
         var center :- Triple(centerValue, Dotted(parent, "center"), PointShape);
         var radiusValue :- RequireValue(table, "radius", parent);
         var radius :- ParseFloatlike(radiusValue, Dotted(parent, "radius"));
         var material :- MaterialRef(table, parent, stored);
         Ok(SphereModel(center, radius, material))
       case Some(ParallelogramKind) =>
         var cornerValue :- RequireValue(table, "corner", parent);
         var corner :- Triple(cornerValue, Dotted(parent, "corner"), PointShape);
         var material :- MaterialRef(table, parent, stored);
         var vectors :- VectorPair(table, parent);
         Ok(ParallelogramModel(corner, vectors, material))
       case Some(DiscKind) =>
         var centerValue :- RequireValue(table, "center", parent);
         var center :- Triple(centerValue, Dotted(parent, "center"), PointShape);
         var material :- MaterialRef(table, parent, stored);
         var vectors :- VectorPair(table, parent);
         Ok(DiscModel(center, vectors, material))
       case None => Err(KeyError(Dotted(parent, "type"), UnknownObjectType)))
    case _ => Err(KeyError(Dotted("config.materials." + NatToString(index), "type"), NotString))
  }

  /** `ConfigModel`: the texture storage, the materials by name and the objects in order. */
  datatype ConfigModel = ConfigModel(textures: TextureStorage, materials: map<string, MaterialModel>, objects: seq<ObjectModel>)

  /** The contents of a texture storage: the stored textures and the last anonymous id handed out. */
  datatype Store = Store(textures: map<TextureId, TextureModel>, counter: nat)

  /** What the material loop has built so far: the texture storage and the materials by name. */
  datatype MaterialStore = MaterialStore(store: Store, materials: map<string, MaterialModel>)

  /** The keys of a table with one more entry. */
  lemma KeysSnoc(table: TomlTable, i: nat)
    requires i < |table|
    ensures Keys(table[..i + 1]) == Keys(table[..i]) + {table[i].0}
  {
    assert table[..i + 1][i] == table[i];
    assert forall k | 0 <= k < i :: table[..i + 1][k] == table[..i][k];
  }

  /** Pushing anonymous textures leaves the set of names alone. */
  lemma NamedKeysKept(before: map<TextureId, TextureModel>, after: map<TextureId, TextureModel>)
    requires before.Keys <= after.Keys
    requires forall id | id in after && id !in before :: id.Anonymous?
    ensures NamedKeys(before) == NamedKeys(after)
  {
    forall n | n in NamedKeys(after)
      ensures n in NamedKeys(before)
    {
      assert Named(n) in after;
    }
  }

  /** Storing under a name adds that name. */
  lemma NamedKeysPut(textures: map<TextureId, TextureModel>, name: string, t: TextureModel)
    ensures NamedKeys(textures[Named(name) := t]) == NamedKeys(textures) + {name}
  {
    forall n | n in NamedKeys(textures[Named(name) := t])
      ensures n in NamedKeys(textures) + {name}
    {
      assert Named(n) in textures[Named(name) := t];
    }
    forall n | n in NamedKeys(textures)
      ensures n in NamedKeys(textures[Named(name) := t])
    {
      assert Named(n) in textures;
    }
  }

  /** No later entry has the same key: the `i`th entry is the last one with its key. */
  predicate LastWithKey(entries: TomlTable, i: nat)
    requires i < |entries|
  {
    forall j | i < j < |entries| :: entries[j].0 != entries[i].0
  }

  /** The shape of `TextureModel::parse`: the name, the table and the counter on entry. */
  type TextureParser = (string, TomlTable, nat) -> Parsed<TextureModel>

  /** The shape of `MaterialModel::parse`: the name, the table, the stored names and the counter on entry. */
  type MaterialParser = (string, TomlTable, set<string>, nat) -> Parsed<MaterialModel>

  /** The shape of `ObjectModel::parse`: the index, the table and the stored material names. */
  type ObjectParser = (nat, TomlTable, set<string>) -> Result<ObjectModel, ConfigError>

  /** `TextureModel::parse` for a given file system, as the texture loop calls it. */
  function ParseTextures(fileExists: string -> bool): TextureParser
  {
    (name: string, table: TomlTable, counter: nat) => TextureParse(name, table, fileExists, counter)
  }

  /**
   * One turn of the texture loop of `from_table`: the entry must be a table; its parse
   * may push anonymous colours, and the texture is then stored under its name, which
   * panics for an image.
   */
  function StoreTexture(s: Store, id: string, entry: Value, parse: TextureParser): Result<Store, ConfigError>
  {
    if !entry.Table? then Err(KeyError(Dotted("config.textures", id), NotTable))
    else
      var p := parse(id, entry.entries, s.counter);
      if p.result.Err? then Err(p.result.error)
      else if !Implemented(p.result.value) then Err(Panic(TodoMessage))
      else Ok(Store(Pushed(s.textures, s.counter, p.pushed)[Named(id) := p.result.value], s.counter + |p.pushed|))
  }

  /** The texture loop of `from_table` over the entries in order, stopping at the first failure. */
  function StoreTextures(s: Store, entries: TomlTable, parse: TextureParser): Result<Store, ConfigError>
    decreases |entries|
  {
    if entries == [] then Ok(s)
    else
      var before :- StoreTextures(s, entries[..|entries| - 1], parse);
      StoreTexture(before, entries[|entries| - 1].0, entries[|entries| - 1].1, parse)
  }

  /** Once an entry fails, the texture loop fails with its error. */
  lemma {:induction false} StoreTexturesStops(s: Store, entries: TomlTable, parse: TextureParser, k: nat)
    requires k <= |entries| && StoreTextures(s, entries[..k], parse).Err?
    ensures StoreTextures(s, entries, parse) == StoreTextures(s, entries[..k], parse)
    decreases |entries|
  {
    if k < |entries| {
      var n := |entries| - 1;
      assert entries[..n][..k] == entries[..k];
      StoreTexturesStops(s, entries[..n], parse, k);
    } else {
      assert entries[..k] == entries;
    }
  }

  /** A turn of the texture loop whose parse succeeds with an implemented texture stores it. */
  lemma StoreTextureOk(before: Store, id: string, entry: Value, parse: TextureParser,
                       p: Parsed<TextureModel>, after: map<TextureId, TextureModel>)
    requires entry.Table? && p == parse(id, entry.entries, before.counter)
    requires p.result.Ok? && Implemented(p.result.value)
    requires after == Pushed(before.textures, before.counter, p.pushed)[Named(id) := p.result.value]
    ensures StoreTexture(before, id, entry, parse) == Ok(Store(after, before.counter + |p.pushed|))
  {
  }

  /** One more entry read after a successful prefix is one more turn of the loop. */
  lemma StoreTexturesStep(s: Store, entries: TomlTable, parse: TextureParser, i: nat, before: Store)
    requires i < |entries| && StoreTextures(s, entries[..i], parse) == Ok(before)
    ensures StoreTextures(s, entries[..i + 1], parse) == StoreTexture(before, entries[i].0, entries[i].1, parse)
  {
    assert entries[..i + 1][..i] == entries[..i];
  }

  /** Reading a texture table adds exactly its keys to the names stored. */
  lemma {:induction false} StoreTexturesNames(s: Store, entries: TomlTable, parse: TextureParser)
    requires StoreTextures(s, entries, parse).Ok?
    ensures NamedKeys(StoreTextures(s, entries, parse).value.textures) == NamedKeys(s.textures) + Keys(entries)
    decreases |entries|
  {
    if entries == [] {
      assert Keys(entries) == {};
    } else {
      var n := |entries| - 1;
      StoreTexturesNames(s, entries[..n], parse);
      KeysSnoc(entries, n);
      assert entries[..n + 1] == entries;
      var before := StoreTextures(s, entries[..n], parse).value;
      var p := parse(entries[n].0, entries[n].1.entries, before.counter);
      var pushed := Pushed(before.textures, before.counter, p.pushed);
      PushedKeeps(before.textures, before.counter, p.pushed);
      NamedKeysKept(before.textures, pushed);
      NamedKeysPut(pushed, entries[n].0, p.result.value);
    }
  }

  /**
   * Each entry of a texture table read successfully is a table whose parse, at the
   * counter reached before it, succeeds with an implemented texture; the last entry
   * with a given name is the texture stored under that name.
   */
  lemma {:induction false} StoreTexturesEntry(s: Store, entries: TomlTable, parse: TextureParser, i: nat)
    requires StoreTextures(s, entries, parse).Ok? && i < |entries|
    ensures var before := StoreTextures(s, entries[..i], parse);
      before.Ok? && entries[i].1.Table? &&
      var p := parse(entries[i].0, entries[i].1.entries, before.value.counter);
      p.result.Ok? && Implemented(p.result.value) &&
      (LastWithKey(entries, i) ==>
         var stored := StoreTextures(s, entries, parse).value.textures;
         Named(entries[i].0) in stored && stored[Named(entries[i].0)] == p.result.value)
    decreases |entries|
  {
    var n := |entries| - 1;
    var init := entries[..n];
    if i < n {
      assert init[..i] == entries[..i];
      assert init[i] == entries[i];
      StoreTexturesEntry(s, init, parse, i);
      if LastWithKey(entries, i) {
        assert LastWithKey(init, i);
        assert entries[n].0 != entries[i].0;
        var before := StoreTextures(s, init, parse).value;
        var p := parse(entries[n].0, entries[n].1.entries, before.counter);
        PushedKeeps(before.textures, before.counter, p.pushed);
      }
    } else {
      assert init == entries[..i];
    }
  }

  /**
   * The texture loop fails at entry `i` with error `e`: every earlier entry was read, and
   * this one is not a table, or its parse fails with `e`, or it is an image, whose storing
   * panics.
   */
  predicate TextureFailsAt(s: Store, entries: TomlTable, parse: TextureParser, i: nat, e: ConfigError)
    requires i < |entries|
  {
    var before := StoreTextures(s, entries[..i], parse);
    before.Ok? &&
    if !entries[i].1.Table? then e == KeyError(Dotted("config.textures", entries[i].0), NotTable)
    else
      var p := parse(entries[i].0, entries[i].1.entries, before.value.counter);
      if p.result.Err? then e == p.result.error else !Implemented(p.result.value) && e == Panic(TodoMessage)
  }

  /** A texture table that fails to read fails at one of its entries, with that entry's error. */
  lemma {:induction false} StoreTexturesFailure(s: Store, entries: TomlTable, parse: TextureParser)
    requires StoreTextures(s, entries, parse).Err?
    ensures exists i | 0 <= i < |entries| :: TextureFailsAt(s, entries, parse, i, StoreTextures(s, entries, parse).error)
    decreases |entries|
  {
    var n := |entries| - 1;
    var init := entries[..n];
    var e := StoreTextures(s, entries, parse).error;
    if StoreTextures(s, init, parse).Err? {
      StoreTexturesFailure(s, init, parse);
      var i :| 0 <= i < |init| && TextureFailsAt(s, init, parse, i, e);
      assert init[..i] == entries[..i];
      assert TextureFailsAt(s, entries, parse, i, e);
    } else {
      assert TextureFailsAt(s, entries, parse, n, e);
    }
  }

  /**
   * One turn of the material loop of `from_table`: the entry must be a table, parsed
   * against the names stored so far; its shortcut colour is pushed, and the material,
   * once built (which panics for a metal whose fuzz is out of range), is kept under its name.
   */
  function StoreMaterial(m: MaterialStore, id: string, entry: Value, parse: MaterialParser): Result<MaterialStore, ConfigError>
  {
    if !entry.Table? then Err(KeyError(Dotted("config.materials", id), NotTable))
    else
      var p := parse(id, entry.entries, NamedKeys(m.store.textures), m.store.counter);
      if p.result.Err? then Err(p.result.error)
      else if !FuzzInRange(p.result.value) then Err(Panic(FuzzMessage))
      else Ok(MaterialStore(Store(Pushed(m.store.textures, m.store.counter, p.pushed), m.store.counter + |p.pushed|),
                            m.materials[id := p.result.value]))
  }

  /** The material loop of `from_table` over the entries in order, stopping at the first failure. */
  function StoreMaterials(m: MaterialStore, entries: TomlTable, parse: MaterialParser): Result<MaterialStore, ConfigError>
    decreases |entries|
  {
    if entries == [] then Ok(m)
    else
      var before :- StoreMaterials(m, entries[..|entries| - 1], parse);
      StoreMaterial(before, entries[|entries| - 1].0, entries[|entries| - 1].1, parse)
  }

  /** Once an entry fails, the material loop fails with its error. */
  lemma {:induction false} StoreMaterialsStops(m: MaterialStore, entries: TomlTable, parse: MaterialParser, k: nat)
    requires k <= |entries| && StoreMaterials(m, entries[..k], parse).Err?
    ensures StoreMaterials(m, entries, parse) == StoreMaterials(m, entries[..k], parse)
    decreases |entries|
  {
    if k < |entries| {
      var n := |entries| - 1;
      assert entries[..n][..k] == entries[..k];
      StoreMaterialsStops(m, entries[..n], parse, k);
    } else {
      assert entries[..k] == entries;
    }
  }

  /** A turn of the material loop whose parse succeeds with an in-range material keeps it. */
  lemma StoreMaterialOk(before: MaterialStore, id: string, entry: Value, parse: MaterialParser,
                        p: Parsed<MaterialModel>, after: map<TextureId, TextureModel>)
    requires entry.Table? && p == parse(id, entry.entries, NamedKeys(before.store.textures), before.store.counter)
    requires p.result.Ok? && FuzzInRange(p.result.value)
    requires after == Pushed(before.store.textures, before.store.counter, p.pushed)
    ensures StoreMaterial(before, id, entry, parse) ==
            Ok(MaterialStore(Store(after, before.store.counter + |p.pushed|), before.materials[id := p.result.value]))
  {
  }

  /** One more entry read after a successful prefix is one more turn of the loop. */
  lemma StoreMaterialsStep(m: MaterialStore, entries: TomlTable, parse: MaterialParser, i: nat, before: MaterialStore)
    requires i < |entries| && StoreMaterials(m, entries[..i], parse) == Ok(before)
    ensures StoreMaterials(m, entries[..i + 1], parse) == StoreMaterial(before, entries[i].0, entries[i].1, parse)
  {
    assert entries[..i + 1][..i] == entries[..i];
  }

  /**
   * Reading a material table adds exactly its keys to the materials, and leaves the
   * names of the stored textures as they were.
   */
  lemma {:induction false} StoreMaterialsNames(m: MaterialStore, entries: TomlTable, parse: MaterialParser)
    requires StoreMaterials(m, entries, parse).Ok?
    ensures StoreMaterials(m, entries, parse).value.materials.Keys == m.materials.Keys + Keys(entries)
    ensures NamedKeys(StoreMaterials(m, entries, parse).value.store.textures) == NamedKeys(m.store.textures)
    decreases |entries|
  {
    if entries == [] {
      assert Keys(entries) == {};
    } else {
      var n := |entries| - 1;
      StoreMaterialsNames(m, entries[..n], parse);
      KeysSnoc(entries, n);
      assert entries[..n + 1] == entries;
      var before := StoreMaterials(m, entries[..n], parse).value;
      var p := parse(entries[n].0, entries[n].1.entries, NamedKeys(before.store.textures), before.store.counter);
      PushedKeeps(before.store.textures, before.store.counter, p.pushed);
      NamedKeysKept(before.store.textures, Pushed(before.store.textures, before.store.counter, p.pushed));
    }
  }

  /**
   * Each entry of a material table read successfully is a table whose parse, at the state
   * reached before it, succeeds with a material built without panicking; the last entry
   * with a given name is the material kept under that name.
   */
  lemma {:induction false} StoreMaterialsEntry(m: MaterialStore, entries: TomlTable, parse: MaterialParser, i: nat)
    requires StoreMaterials(m, entries, parse).Ok? && i < |entries|
    ensures var before := StoreMaterials(m, entries[..i], parse);
      before.Ok? && entries[i].1.Table? &&
      var p := parse(entries[i].0, entries[i].1.entries, NamedKeys(before.value.store.textures), before.value.store.counter);
      p.result.Ok? && FuzzInRange(p.result.value) &&
      (LastWithKey(entries, i) ==>
         var stored := StoreMaterials(m, entries, parse).value.materials;
         entries[i].0 in stored && stored[entries[i].0] == p.result.value)
    decreases |entries|
  {
    var n := |entries| - 1;
    var init := entries[..n];
    if i < n {
      assert init[..i] == entries[..i];
      assert init[i] == entries[i];
      StoreMaterialsEntry(m, init, parse, i);
      if LastWithKey(entries, i) {
        assert LastWithKey(init, i);
        assert entries[n].0 != entries[i].0;
      }
    } else {
      assert init == entries[..i];
    }
  }

  /**
   * The material loop fails at entry `i` with error `e`: every earlier entry was read, and
   * this one is not a table, or its parse fails with `e`, or it is a metal whose fuzz
   * makes `Metal::with_fuzz` panic.
   */
  predicate MaterialFailsAt(m: MaterialStore, entries: TomlTable, parse: MaterialParser, i: nat, e: ConfigError)
    requires i < |entries|
  {
    var before := StoreMaterials(m, entries[..i], parse);
    before.Ok? &&
    if !entries[i].1.Table? then e == KeyError(Dotted("config.materials", entries[i].0), NotTable)
    else
      var p := parse(entries[i].0, entries[i].1.entries, NamedKeys(before.value.store.textures), before.value.store.counter);
      if p.result.Err? then e == p.result.error else !FuzzInRange(p.result.value) && e == Panic(FuzzMessage)
  }

  /** A material table that fails to read fails at one of its entries, with that entry's error. */
  lemma {:induction false} StoreMaterialsFailure(m: MaterialStore, entries: TomlTable, parse: MaterialParser)
    requires StoreMaterials(m, entries, parse).Err?
    ensures exists i | 0 <= i < |entries| :: MaterialFailsAt(m, entries, parse, i, StoreMaterials(m, entries, parse).error)
    decreases |entries|
  {
    var n := |entries| - 1;
    var init := entries[..n];
    var e := StoreMaterials(m, entries, parse).error;
    if StoreMaterials(m, init, parse).Err? {
      StoreMaterialsFailure(m, init, parse);
      var i :| 0 <= i < |init| && MaterialFailsAt(m, init, parse, i, e);
      assert init[..i] == entries[..i];
      assert MaterialFailsAt(m, entries, parse, i, e);
    } else {
      assert MaterialFailsAt(m, entries, parse, n, e);
    }
  }

  /** The object loop of `from_table` over the entries in order, stopping at the first failure. */
  function ObjectsFrom(items: seq<Value>, stored: set<string>, parse: ObjectParser): Result<seq<ObjectModel>, ConfigError>
    decreases |items|
  {
    if items == [] then Ok([])
    else
      var before :- ObjectsFrom(items[..|items| - 1], stored, parse);
      var i := |items| - 1;
      if !items[i].Table? then Err(KeyError(ElementKey("config.objects", i), NotTable))
      else
        var parsed :- parse(i, items[i].entries, stored);
        Ok(before + [parsed])
  }

  /** An object array read successfully gives one object per entry: the parse of that entry at its index. */
  lemma {:induction false} ObjectsFromEntries(items: seq<Value>, stored: set<string>, parse: ObjectParser)
    requires ObjectsFrom(items, stored, parse).Ok?
    ensures |ObjectsFrom(items, stored, parse).value| == |items|
    ensures forall i | 0 <= i < |items| ::
              items[i].Table? && parse(i, items[i].entries, stored) == Ok(ObjectsFrom(items, stored, parse).value[i])
    decreases |items|
  {
    if items != [] {
      var n := |items| - 1;
      ObjectsFromEntries(items[..n], stored, parse);
      assert forall i | 0 <= i < n :: items[..n][i] == items[i];
    }
  }

  /** The object loop fails at entry `i` with error `e`: every earlier entry was read, and this one is not a table or its parse fails with `e`. */
  predicate ObjectFailsAt(items: seq<Value>, stored: set<string>, parse: ObjectParser, i: nat, e: ConfigError)
    requires i < |items|
  {
    ObjectsFrom(items[..i], stored, parse).Ok? &&
    if items[i].Table? then parse(i, items[i].entries, stored) == Err(e)
    else e == KeyError(ElementKey("config.objects", i), NotTable)
  }

  /** An object array that fails to read fails at one of its entries, with that entry's error. */
  lemma {:induction false} ObjectsFromFailure(items: seq<Value>, stored: set<string>, parse: ObjectParser)
    requires ObjectsFrom(items, stored, parse).Err?
    ensures exists i | 0 <= i < |items| :: ObjectFailsAt(items, stored, parse, i, ObjectsFrom(items, stored, parse).error)
    decreases |items|
  {
    var n := |items| - 1;
    var init := items[..n];
    var e := ObjectsFrom(items, stored, parse).error;
    if ObjectsFrom(init, stored, parse).Err? {
      ObjectsFromFailure(init, stored, parse);
      var i :| 0 <= i < |init| && ObjectFailsAt(init, stored, parse, i, e);
      assert init[..i] == items[..i];
      assert ObjectFailsAt(items, stored, parse, i, e);
    } else {
      assert ObjectFailsAt(items, stored, parse, n, e);
    }
  }

  /** Once an entry fails, the object loop fails with its error. */
  lemma {:induction false} ObjectsFromStops(items: seq<Value>, stored: set<string>, parse: ObjectParser, k: nat)
    requires k <= |items| && ObjectsFrom(items[..k], stored, parse).Err?
    ensures ObjectsFrom(items, stored, parse) == ObjectsFrom(items[..k], stored, parse)
    decreases |items|
  {
    if k < |items| {
      var n := |items| - 1;
      assert items[..n][..k] == items[..k];
      ObjectsFromStops(items[..n], stored, parse, k);
    } else {
      assert items[..k] == items;
    }
  }

  /** What `from_table` builds, on success: the texture storage, the materials and the objects. */
  datatype Loaded = Loaded(store: Store, materials: map<string, MaterialModel>, objects: seq<ObjectModel>)

  /**
   * `ConfigModel::from_table` as a function of the table: the three sections are checked
   * in order, then the textures are read into an empty storage, the materials against
   * that storage, and the objects against the materials.
   */
  function Load(table: TomlTable, fileExists: string -> bool): Result<Loaded, ConfigError>
  {
    var textures := Get(table, "textures");
    var materials := Get(table, "materials");
    var objects := Get(table, "objects");
    if !(textures.Some? && textures.value.Table?) then Err(KeyError("config.textures", NotTable))
    else if !(materials.Some? && materials.value.Table?) then Err(KeyError("config.materials", NotTable))
    else if !(objects.Some? && objects.value.Array?) then Err(KeyError("config.objects", NotTableList))
    else
      var store :- StoreTextures(Store(map[], 0), textures.value.entries, ParseTextures(fileExists));
      var built :- StoreMaterials(MaterialStore(store, map[]), materials.value.entries, MaterialParse);
      var objs :- ObjectsFrom(objects.value.items, built.materials.Keys, ObjectParse);
      Ok(Loaded(built.store, built.materials, objs))
  }

  /**
   * A configuration that loads holds the named textures and the materials of its tables,
   * exactly, and one object per entry of its array, each the parse of that entry and
   * each naming a stored material.
   */
  lemma LoadFacts(table: TomlTable, fileExists: string -> bool)
    requires Load(table, fileExists).Ok?
    ensures var l := Load(table, fileExists).value;
      && NamedKeys(l.store.textures) == Keys(Get(table, "textures").value.entries)
      && l.materials.Keys == Keys(Get(table, "materials").value.entries)
      && |l.objects| == |Get(table, "objects").value.items|
      && (forall i | 0 <= i < |l.objects| ::
            Get(table, "objects").value.items[i].Table? &&
            ObjectParse(i, Get(table, "objects").value.items[i].entries, l.materials.Keys) == Ok(l.objects[i]))
      && (forall o | o in l.objects :: o.material in l.materials)
  {
    var store := StoreTextures(Store(map[], 0), Get(table, "textures").value.entries, ParseTextures(fileExists)).value;
    StoreTexturesNames(Store(map[], 0), Get(table, "textures").value.entries, ParseTextures(fileExists));
    assert NamedKeys(map[]) == {};
    StoreMaterialsNames(MaterialStore(store, map[]), Get(table, "materials").value.entries, MaterialParse);
    var built := StoreMaterials(MaterialStore(store, map[]), Get(table, "materials").value.entries, MaterialParse).value;
    var items := Get(table, "objects").value.items;
    ObjectsFromEntries(items, built.materials.Keys, ObjectParse);
    var l := Load(table, fileExists).value;
    forall o | o in l.objects
      ensures o.material in l.materials
    {
      var i :| 0 <= i < |l.objects| && l.objects[i] == o;
      assert ObjectParse(i, items[i].entries, built.materials.Keys) == Ok(o);
    }
  }

  /**
   * `ConfigModel::from_table`: `textures` and `materials` must be tables and `objects` an
   * array, checked in that order. The textures are read and stored under their names,
   * then the materials, then the objects, stopping at the first error; the outcome is
   * `Load`'s. On success every material refers to stored textures, every checkerboard to
   * stored colours, and every metal has a fuzz `Metal::with_fuzz` accepts.
   */
  method FromTable(table: TomlTable, fileExists: string -> bool) returns (r: Result<ConfigModel, ConfigError>)
    ensures !(Get(table, "textures").Some? && Get(table, "textures").value.Table?) ==>
              r == Err(KeyError("config.textures", NotTable))
    ensures Get(table, "textures").Some? && Get(table, "textures").value.Table? &&
            !(Get(table, "materials").Some? && Get(table, "materials").value.Table?) ==>
              r == Err(KeyError("config.materials", NotTable))
    ensures Get(table, "textures").Some? && Get(table, "textures").value.Table? &&
            Get(table, "materials").Some? && Get(table, "materials").value.Table? &&
            !(Get(table, "objects").Some? && Get(table, "objects").value.Array?) ==>
              r == Err(KeyError("config.objects", NotTableList))
    ensures r.Ok? <==> Load(table, fileExists).Ok?
    ensures r.Err? ==> r.error == Load(table, fileExists).error
    ensures r.Ok? ==>
              Store(r.value.textures.textures, r.value.textures.counter) == Load(table, fileExists).value.store &&
              r.value.materials == Load(table, fileExists).value.materials &&
              r.value.objects == Load(table, fileExists).value.objects
    ensures r.Ok? ==>
      Get(table, "textures").Some? && Get(table, "textures").value.Table? &&
      Get(table, "materials").Some? && Get(table, "materials").value.Table? &&
      Get(table, "objects").Some? && Get(table, "objects").value.Array?
    ensures r.Ok? ==> r.value.textures.Valid()
    ensures r.Ok? ==> NamedKeys(r.value.textures.textures) == Keys(Get(table, "textures").value.entries)
    ensures r.Ok? ==> r.value.materials.Keys == Keys(Get(table, "materials").value.entries)
    ensures r.Ok? ==> forall n | n in r.value.materials ::
              MaterialResolved(r.value.textures.textures, r.value.materials[n]) && FuzzInRange(r.value.materials[n])
    ensures r.Ok? ==> |r.value.objects| == |Get(table, "objects").value.items|
    ensures r.Ok? ==> forall i | 0 <= i < |r.value.objects| ::
              Get(table, "objects").value.items[i].Table? &&
              ObjectParse(i, Get(table, "objects").value.items[i].entries, r.value.materials.Keys) == Ok(r.value.objects[i])
    ensures r.Ok? ==> forall o | o in r.value.objects :: o.material in r.value.materials
  {
    var texturesValue := Get(table, "textures");
    if !(texturesValue.Some? && texturesValue.value.Table?) {
      return Err(KeyError("config.textures", NotTable));
    }
    var materialsValue := Get(table, "materials");
    if !(materialsValue.Some? && materialsValue.value.Table?) {
      return Err(KeyError("config.materials", NotTable));
    }
    var objectsValue := Get(table, "objects");
    if !(objectsValue.Some? && objectsValue.value.Array?) {
      return Err(KeyError("config.objects", NotTableList));
    }
    var storage := new TextureStorage();
    var textures := ReadTextures(texturesValue.value.entries, storage, fileExists);
    if textures.Err? {
      return Err(textures.error);
    }
    var materials := ReadMaterials(materialsValue.value.entries, storage);
    if materials.Err? {
      return Err(materials.error);
    }
    var objects := ReadObjects(objectsValue.value.items, materials.value);
    if objects.Err? {
      return Err(objects.error);
    }
    r := Ok(ConfigModel(storage, materials.value, objects.value));
    LoadFacts(table, fileExists);
  }

  /** The texture loop of `from_table`: parse each entry, then store it under its name. */
  method ReadTextures(textureTable: TomlTable, storage: TextureStorage, fileExists: string -> bool)
    returns (r: Result<(), ConfigError>)
    requires storage.Valid()
    modifies storage
    ensures storage.Valid()
    ensures var f := StoreTextures(Store(old(storage.textures), old(storage.counter)), textureTable, ParseTextures(fileExists));
      && (r.Ok? <==> f.Ok?)
      && (r.Err? ==> r.error == f.error)
      && (r.Ok? ==> Store(storage.textures, storage.counter) == f.value)
    ensures r.Ok? ==> NamedKeys(storage.textures) == NamedKeys(old(storage.textures)) + Keys(textureTable)
  {
    ghost var start := Store(storage.textures, storage.counter);
    ghost var parse := ParseTextures(fileExists);
    for i := 0 to |textureTable|
      invariant storage.Valid()
      invariant StoreTextures(start, textureTable[..i], parse) == Ok(Store(storage.textures, storage.counter))
    {
      StoreTexturesStep(start, textureTable, parse, i, Store(storage.textures, storage.counter));
      var turn := ReadTexture(textureTable[i].0, textureTable[i].1, storage, fileExists);
      if turn.Err? {
        StoreTexturesStops(start, textureTable, parse, i + 1);
        return Err(turn.error);
      }
    }
    assert textureTable[..|textureTable|] == textureTable;
    StoreTexturesNames(start, textureTable, parse);
    r := Ok(());
  }

  /**
   * One turn of the texture loop: the entry must be a table, it is parsed into the
   * storage, and the texture is stored under its name, as `StoreTexture` describes.
   */
  method ReadTexture(id: string, entry: Value, storage: TextureStorage, fileExists: string -> bool)
    returns (r: Result<(), ConfigError>)
    requires storage.Valid()
    modifies storage
    ensures storage.Valid()
    ensures var f := StoreTexture(Store(old(storage.textures), old(storage.counter)), id, entry, ParseTextures(fileExists));
      && (r.Ok? <==> f.Ok?)
      && (r.Err? ==> r.error == f.error)
      && (r.Ok? ==> Store(storage.textures, storage.counter) == f.value)
  {
    ghost var before := Store(storage.textures, storage.counter);
    ghost var parse := ParseTextures(fileExists);
    if !entry.Table? {
      return Err(KeyError(Dotted("config.textures", id), NotTable));
    }
    var texture := ParseTextureModel(id, entry.entries, storage, fileExists);
    ghost var p := parse(id, entry.entries, before.counter);
    assert p == TextureParse(id, entry.entries, fileExists, before.counter);
    if texture.Err? {
      return Err(texture.error);
    }
    if !Implemented(texture.value) {
      return Err(Panic(TodoMessage));
    }
    ghost var parsed := storage.textures;
    assert parsed == Pushed(before.textures, before.counter, p.pushed);
    var _ := storage.PushNamed(id, texture.value);
    assert storage.textures == parsed[Named(id) := p.result.value];
    assert storage.counter == before.counter + |p.pushed|;
    StoreTextureOk(before, id, entry, parse, p, storage.textures);
    r := Ok(());
  }

  /** The material loop of `from_table`: parse each entry against the storage, then keep it under its name. */
  method ReadMaterials(materialTable: TomlTable, storage: TextureStorage)
    returns (r: Result<map<string, MaterialModel>, ConfigError>)
    requires storage.Valid()
    modifies storage
    ensures storage.Valid()
    ensures NamedKeys(storage.textures) == NamedKeys(old(storage.textures))
    ensures var f := StoreMaterials(MaterialStore(Store(old(storage.textures), old(storage.counter)), map[]), materialTable, MaterialParse);
      && (r.Ok? <==> f.Ok?)
      && (r.Err? ==> r.error == f.error)
      && (r.Ok? ==> r.value == f.value.materials && Store(storage.textures, storage.counter) == f.value.store)
    ensures r.Ok? ==> r.value.Keys == Keys(materialTable)
    ensures r.Ok? ==> forall n | n in r.value :: MaterialResolved(storage.textures, r.value[n]) && FuzzInRange(r.value[n])
  {
    ghost var start := MaterialStore(Store(storage.textures, storage.counter), map[]);
    var materials: map<string, MaterialModel> := map[];
    for i := 0 to |materialTable|
      invariant storage.Valid()
      invariant NamedKeys(storage.textures) == NamedKeys(old(storage.textures))
      invariant StoreMaterials(start, materialTable[..i], MaterialParse) == Ok(MaterialStore(Store(storage.textures, storage.counter), materials))
      invariant forall n | n in materials :: MaterialResolved(storage.textures, materials[n]) && FuzzInRange(materials[n])
    {
      var (id, entry) := materialTable[i];
      ghost var before := MaterialStore(Store(storage.textures, storage.counter), materials);
      StoreMaterialsStep(start, materialTable, MaterialParse, i, before);
      if !entry.Table? {
        StoreMaterialsStops(start, materialTable, MaterialParse, i + 1);
        return Err(KeyError(Dotted("config.materials", id), NotTable));
      }
      var material := ParseMaterialModel(id, entry.entries, storage);
      ghost var p := MaterialParse(id, entry.entries, NamedKeys(before.store.textures), before.store.counter);
      assert material == p.result;
      if material.Err? {
        StoreMaterialsStops(start, materialTable, MaterialParse, i + 1);
        return Err(material.error);
      }
      if !FuzzInRange(material.value) {
        StoreMaterialsStops(start, materialTable, MaterialParse, i + 1);
        return Err(Panic(FuzzMessage));
      }
      PushedKeeps(before.store.textures, before.store.counter, p.pushed);
      NamedKeysKept(before.store.textures, storage.textures);
      assert forall n | n in materials :: MaterialResolved(storage.textures, materials[n]) by {
        assert before.store.textures.Keys <= storage.textures.Keys;
      }
      assert storage.counter == before.store.counter + |p.pushed|;
      StoreMaterialOk(before, id, entry, MaterialParse, p, storage.textures);
      materials := materials[id := material.value];
      assert materials == before.materials[id := p.result.value];
      ghost var next := MaterialStore(Store(storage.textures, storage.counter), materials);
      assert next == MaterialStore(Store(storage.textures, before.store.counter + |p.pushed|), before.materials[id := p.result.value]);
      assert StoreMaterials(start, materialTable[..i + 1], MaterialParse) == Ok(next);
    }
    assert materialTable[..|materialTable|] == materialTable;
    StoreMaterialsNames(start, materialTable, MaterialParse);
    r := Ok(materials);
  }

  /** The object loop of `from_table`: every entry must be a table, parsed against the stored materials. */
  method ReadObjects(objectArray: seq<Value>, materials: map<string, MaterialModel>)
    returns (r: Result<seq<ObjectModel>, ConfigError>)
    ensures r == ObjectsFrom(objectArray, materials.Keys, ObjectParse)
    ensures r.Ok? ==> |r.value| == |objectArray|
    ensures r.Ok? ==> forall i | 0 <= i < |objectArray| ::
              objectArray[i].Table? && ObjectParse(i, objectArray[i].entries, materials.Keys) == Ok(r.value[i])
    ensures r.Err? ==> exists i | 0 <= i < |objectArray| :: ObjectFailsAt(objectArray, materials.Keys, ObjectParse, i, r.error)
  {
    var objects: seq<ObjectModel> := [];
    for i := 0 to |objectArray|
      invariant ObjectsFrom(objectArray[..i], materials.Keys, ObjectParse) == Ok(objects)
    {
      var entry := objectArray[i];
      assert objectArray[..i + 1][..i] == objectArray[..i];
      if !entry.Table? {
        ObjectsFromStops(objectArray, materials.Keys, ObjectParse, i + 1);
        ObjectsFromFailure(objectArray, materials.Keys, ObjectParse);
        return Err(KeyError(ElementKey("config.objects", i), NotTable));
      }
      var parsed := ObjectParse(i, entry.entries, materials.Keys);
      if parsed.Err? {
        ObjectsFromStops(objectArray, materials.Keys, ObjectParse, i + 1);
        ObjectsFromFailure(objectArray, materials.Keys, ObjectParse);
        return Err(parsed.error);
      }
      objects := objects + [parsed.value];
    }
    assert objectArray[..|objectArray|] == objectArray;
    ObjectsFromEntries(objectArray, materials.Keys, ObjectParse);
    r := Ok(objects);
  }
}
