/**
 * A store together with the id and directory it belongs to: where its settings file
 * lives, how it is read at start-up and how it is saved.  Also the global `Settings`
 * struct, whose one field is `java`.
 */
module Managers {
  import opened Wrappers
  import Json
  import opened Files
  import opened Items
  import SettingDerive
  import ModpackSettingDerive
  import JavaVersions

  type i32 = x: int | -0x8000_0000 <= x < 0x8000_0000

  /** The id that stands for the global store. */
  const GLOBAL_ID: i32 := -1

  /** `get_setting_file_path`: `<dir>/rev/settings.json` for a modpack, `<dir>/setting.json` for the global store. */
  function SettingFilePath(id: i32, modpackPath: Path): Path {
    if id != GLOBAL_ID then Join(Join(modpackPath, "rev"), "settings.json") else Join(modpackPath, "setting.json")
  }

  /** The settings file lies inside its directory: `settings.json` under `rev` for a modpack, `setting.json` for the global store. */
  lemma SettingFileInDirectory(id: i32, modpackPath: Path)
    ensures var r := SettingFilePath(id, modpackPath);
            && |r| > |modpackPath| && r[..|modpackPath|] == modpackPath
            && (id != GLOBAL_ID ==> r[|modpackPath|..] == ["rev", "settings.json"])
            && (id == GLOBAL_ID ==> r[|modpackPath|..] == ["setting.json"])
  {
    var r := SettingFilePath(id, modpackPath);
    if id != GLOBAL_ID {
      assert r == modpackPath + ["rev", "settings.json"];
    } else {
      assert r == modpackPath + ["setting.json"];
    }
  }

  /** Saving a modpack's settings never overwrites the global settings file, whatever the directories. */
  lemma ScopeFileIsNotGlobalFile(id: i32, modpackPath: Path, globalPath: Path)
    requires id != GLOBAL_ID
    ensures SettingFilePath(id, modpackPath) != SettingFilePath(GLOBAL_ID, globalPath)
  {
    var p, q := SettingFilePath(id, modpackPath), SettingFilePath(GLOBAL_ID, globalPath);
    assert p[|p| - 1] == "settings.json" && q[|q| - 1] == "setting.json";
  }

  /** Writes a store's saved object to its file, or passes on the error of `save()?`. */
  function Written(files: FileSystem, path: Path, saved: Result<Json.Value, Error>): (r: Result<FileSystem, Error>)
    ensures saved.Err? ==> r == Err(saved.error)
    ensures saved.Ok? ==> r.Ok? && r.value.Keys == files.Keys + {path} && r.value[path] == Text(saved.value)
    ensures saved.Ok? ==> forall p | p in files && p != path :: r.value[p] == files[p]
  {
    match saved
    case Err(e) => Err(e)
    case Ok(json) => Ok(files[path := Text(json)])
  }

  /**
   * The items `SettingManager::read(id, modpack_path)` starts with: `Settings::read` of the
   * settings file if it exists, otherwise `Settings::create()`.
   */
  function ReadSettings<T>(id: i32, modpackPath: Path, files: FileSystem, schema: Schema<T>): (r: Result<map<string, T>, Error>)
    requires schema.WellFormed()
    ensures var path := SettingFilePath(id, modpackPath);
            && (path !in files ==> r == SettingDerive.CreateItems(schema))
            && (path in files && files[path].Text? ==> r == SettingDerive.ReadItems(schema, files[path].value))
            && (path in files && files[path].Unparseable? ==> r.Err?)
  {
    var filepath := if id != -1 then modpackPath + ["rev", "settings.json"] else modpackPath + ["setting.json"];
    assert filepath == SettingFilePath(id, modpackPath);
    if filepath in files then
      match files[filepath]
      case Text(json) => SettingDerive.ReadItems(schema, json)
      case Unparseable => Err(Deserialize("settings file is not valid JSON"))
    else SettingDerive.CreateItems(schema)
  }

  /** A global store with its id and directory. */
  class SettingManager<T> {
    const id: i32
    const modpackPath: Path
    const setting: SettingDerive.Store<T>

    constructor (id: i32, modpackPath: Path, setting: SettingDerive.Store<T>)
      ensures this.id == id && this.modpackPath == modpackPath && this.setting == setting
    {
      this.id := id;
      this.modpackPath := modpackPath;
      this.setting := setting;
    }

    function GetSettingFilePath(): Path {
      SettingFilePath(id, modpackPath)
    }

    /** `save()`: the store's `save()?` written to the settings file. */
    function Save(files: FileSystem): (r: Result<FileSystem, Error>)
      reads setting
      requires setting.Valid()
    {
      Written(files, GetSettingFilePath(), SettingDerive.SaveItems(setting.schema, setting.items))
    }

    /**
     * `save()` then `SettingManager::read(id, modpack_path)` gives the same items back,
     * when every item reads back its own `write`; no other file is touched.
     */
    lemma SaveThenRead(files: FileSystem)
      requires setting.Valid() && SettingDerive.WritesReadBack(setting.schema, setting.items)
      ensures Save(files).Ok?
      ensures ReadSettings(id, modpackPath, Save(files).value, setting.schema) == Ok(setting.items)
      ensures forall p | p in files && p != GetSettingFilePath() :: p in Save(files).value && Save(files).value[p] == files[p]
    {
      SettingDerive.SaveReadRoundTrip(setting.schema, setting.items);
    }
  }

  /** `SettingManager::read(id, modpack_path)`. */
  method ReadManager<T>(id: i32, modpackPath: Path, files: FileSystem, schema: Schema<T>) returns (r: Result<SettingManager<T>, Error>)
    requires schema.WellFormed()
    ensures r.Ok? <==> ReadSettings(id, modpackPath, files, schema).Ok?
    ensures r.Ok? ==> && r.value.id == id && r.value.modpackPath == modpackPath
                      && fresh(r.value.setting) && r.value.setting.Valid() && r.value.setting.schema == schema
                      && r.value.setting.items == ReadSettings(id, modpackPath, files, schema).value
  {
    var items := ReadSettings(id, modpackPath, files, schema);
    if items.Err? {
      return Err(items.error);
    }
    var store := new SettingDerive.Store(schema, items.value);
    var manager := new SettingManager(id, modpackPath, store);
    return Ok(manager);
  }

  /** `SettingManager::create(id, modpack_path)`: exactly that id and directory, with `Settings::create()`. */
  method CreateManager<T>(id: i32, modpackPath: Path, schema: Schema<T>) returns (r: Result<SettingManager<T>, Error>)
    requires schema.WellFormed()
    ensures r.Ok? <==> SettingDerive.CreateItems(schema).Ok?
    ensures r.Ok? ==> && r.value.id == id && r.value.modpackPath == modpackPath
                      && fresh(r.value.setting) && r.value.setting.Valid() && r.value.setting.schema == schema
                      && r.value.setting.items == SettingDerive.CreateItems(schema).value
  {
    var items := SettingDerive.CreateItems(schema);
    if items.Err? {
      return Err(items.error);
    }
    var store := new SettingDerive.Store(schema, items.value);
    var manager := new SettingManager(id, modpackPath, store);
    return Ok(manager);
  }

  /** The items a modpack's manager starts with: the overrides in its settings file, or none. */
  function ReadModpackSettings<T>(id: i32, modpackPath: Path, files: FileSystem, schema: Schema<T>): (r: Result<map<string, Option<T>>, Error>)
    requires schema.WellFormed()
    ensures var path := SettingFilePath(id, modpackPath);
            && (path !in files ==> r == ModpackSettingDerive.CreateItems(schema))
            && (path in files && files[path].Text? ==> r == ModpackSettingDerive.ReadItems(schema, files[path].value))
            && (path in files && files[path].Unparseable? ==> r.Err?)
  {
    var filepath := SettingFilePath(id, modpackPath);
    if filepath in files then
      match files[filepath]
      case Text(json) => ModpackSettingDerive.ReadItems(schema, json)
      case Unparseable => Err(Deserialize("settings file is not valid JSON"))
    else ModpackSettingDerive.CreateItems(schema)
  }

  /** A modpack's store of overrides with its id and directory. */
  class ModpackSettingManager<T> {
    const id: i32
    const modpackPath: Path
    const setting: ModpackSettingDerive.ModpackStore<T>

    constructor (id: i32, modpackPath: Path, setting: ModpackSettingDerive.ModpackStore<T>)
      ensures this.id == id && this.modpackPath == modpackPath && this.setting == setting
    {
      this.id := id;
      this.modpackPath := modpackPath;
      this.setting := setting;
    }

    function GetSettingFilePath(): Path {
      SettingFilePath(id, modpackPath)
    }

    /** `save()`: only the overriding fields are written to the modpack's settings file. */
    function Save(files: FileSystem): (r: Result<FileSystem, Error>)
      reads setting
      requires setting.Valid()
    {
      Written(files, GetSettingFilePath(), ModpackSettingDerive.SaveItems(setting.schema, setting.items))
    }

    /**
     * `save()` then reading the modpack manager back gives the same overrides and the same
     * inheriting fields, when every override reads back its own `write`; no other file is touched.
     */
    lemma SaveThenRead(files: FileSystem)
      requires setting.Valid() && ModpackSettingDerive.WritesReadBack(setting.schema, setting.items)
      ensures Save(files).Ok?
      ensures ReadModpackSettings(id, modpackPath, Save(files).value, setting.schema) == Ok(setting.items)
      ensures forall p | p in files && p != GetSettingFilePath() :: p in Save(files).value && Save(files).value[p] == files[p]
    {
      ModpackSettingDerive.SaveReadRoundTrip(setting.schema, setting.items);
    }
  }

  /** `ModpackSettingManager::read(id, modpack_path)`. */
  method ReadModpackManager<T>(id: i32, modpackPath: Path, files: FileSystem, schema: Schema<T>)
    returns (r: Result<ModpackSettingManager<T>, Error>)
    requires schema.WellFormed()
    ensures r.Ok? <==> ReadModpackSettings(id, modpackPath, files, schema).Ok?
    ensures r.Ok? ==> && r.value.id == id && r.value.modpackPath == modpackPath
                      && fresh(r.value.setting) && r.value.setting.Valid() && r.value.setting.schema == schema
                      && r.value.setting.items == ReadModpackSettings(id, modpackPath, files, schema).value
  {
    var items := ReadModpackSettings(id, modpackPath, files, schema);
    if items.Err? {
      return Err(items.error);
    }
    var store := new ModpackSettingDerive.ModpackStore(schema, items.value);
    var manager := new ModpackSettingManager(id, modpackPath, store);
    return Ok(manager);
  }

  // ---------------------------------------------------------------------------
  // The global `Settings` struct: `java: JavaVersions`.

  /** The field list of `Settings`. */
  function SettingsSchema(env: JavaVersions.Environment, receive: (JavaVersions.JavaVersions, seq<string>) -> Received<JavaVersions.JavaVersions>)
    : (schema: Schema<JavaVersions.JavaVersions>)
    ensures schema.WellFormed() && schema.ops.Keys == {"java"}
  {
    Schema(["java"], map["java" := JavaVersions.Ops(env, receive)])
  }

  /** `Settings::save` is the object `{"java": java.write()}` and nothing else. */
  lemma SettingsSave(env: JavaVersions.Environment, receive: (JavaVersions.JavaVersions, seq<string>) -> Received<JavaVersions.JavaVersions>,
                     java: JavaVersions.JavaVersions)
    ensures SettingDerive.SaveItems(SettingsSchema(env, receive), map["java" := java])
            == Ok(Json.Object(map["java" := JavaVersions.Encode(java)]))
  {
    var saved := SettingDerive.SaveItems(SettingsSchema(env, receive), map["java" := java]);
    assert saved.Ok?;
    assert saved.value.fields == map["java" := JavaVersions.Encode(java)];
  }

  /** `Settings::get("java")` is the serialised item; any other name is "Item not found". */
  lemma SettingsGet(env: JavaVersions.Environment, receive: (JavaVersions.JavaVersions, seq<string>) -> Received<JavaVersions.JavaVersions>,
                    java: JavaVersions.JavaVersions, name: string)
    ensures SettingDerive.GetItem(SettingsSchema(env, receive), map["java" := java], name)
            == if name == "java" then Ok(JavaVersions.Encode(java)) else Err(ItemNotFound)
  {
  }

  /** `Settings::read` takes `java` from the `"java"` key; `Settings::create` is reading with the key absent. */
  lemma SettingsRead(env: JavaVersions.Environment, receive: (JavaVersions.JavaVersions, seq<string>) -> Received<JavaVersions.JavaVersions>,
                     json: Json.Value)
    ensures var r := SettingDerive.ReadItems(SettingsSchema(env, receive), json);
            var java := JavaVersions.Read(env, Json.Get(json, "java"));
            && (java.Ok? ==> r == Ok(map["java" := java.value]))
            && (java.Err? ==> r.Err?)
    ensures SettingDerive.CreateItems(SettingsSchema(env, receive))
            == SettingDerive.ReadItems(SettingsSchema(env, receive), Json.Object(map[]))
  {
    var schema := SettingsSchema(env, receive);
    var r := SettingDerive.ReadItems(schema, json);
    if r.Ok? {
      assert r.value.Keys == {"java"};
      assert r.value == map["java" := r.value["java"]];
    }
    SettingDerive.CreateIsReadOfEmpty(schema);
  }
}
