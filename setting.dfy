/**
 * The registry: the global manager and a table of modpack managers keyed by id,
 * built from the manifest at start-up; `change` routes by id and saves the one file
 * it touched.
 */
module Registry {
  import opened Wrappers
  import Json
  import opened Files
  import opened Items
  import SettingDerive
  import ModpackSettingDerive
  import opened Managers

  /** One manifest record: a modpack id and its directory. */
  datatype SettingPath = SettingPath(id: i32, modpackPath: Path)

  /** The table the start-up loop builds: `-1` skipped, a later duplicate id replacing an earlier one. */
  function ScopeTable(manifest: seq<SettingPath>): (r: map<i32, Path>)
    ensures GLOBAL_ID !in r
    decreases |manifest|
  {
    if manifest == [] then map[]
    else
      var table := ScopeTable(manifest[..|manifest| - 1]);
      var s := manifest[|manifest| - 1];
      if s.id == GLOBAL_ID then table else table[s.id := s.modpackPath]
  }

  /** The ids of the manifest other than `-1`. */
  function ManifestIds(manifest: seq<SettingPath>): set<i32> {
    set i | 0 <= i < |manifest| && manifest[i].id != GLOBAL_ID :: manifest[i].id
  }

  /** The table holds exactly the manifest's ids other than `-1`. */
  lemma {:induction false} ScopeTableKeys(manifest: seq<SettingPath>)
    ensures ScopeTable(manifest).Keys == ManifestIds(manifest)
    ensures GLOBAL_ID !in ScopeTable(manifest)
    decreases |manifest|
  {
    if manifest != [] {
      var front := manifest[..|manifest| - 1];
      ScopeTableKeys(front);
      assert forall i | 0 <= i < |front| :: front[i] == manifest[i];
      var last := |manifest| - 1;
      assert ManifestIds(manifest) == ManifestIds(front) + (if manifest[last].id != GLOBAL_ID then {manifest[last].id} else {}) by {
        forall id | id in ManifestIds(manifest) ensures id in ManifestIds(front) || (manifest[last].id != GLOBAL_ID && id == manifest[last].id) {
          var i :| 0 <= i < |manifest| && manifest[i].id != GLOBAL_ID && manifest[i].id == id;
          if i < last { assert front[i].id == id; }
        }
      }
    }
  }

  /** For an id, the table holds the directory of the id's last record in the manifest. */
  lemma {:induction false} ScopeTableLastWins(manifest: seq<SettingPath>, i: nat)
    requires i < |manifest| && manifest[i].id != GLOBAL_ID
    requires forall j | i < j < |manifest| :: manifest[j].id != manifest[i].id
    ensures manifest[i].id in ScopeTable(manifest)
    ensures ScopeTable(manifest)[manifest[i].id] == manifest[i].modpackPath
    decreases |manifest|
  {
    var last := |manifest| - 1;
    if i < last {
      var front := manifest[..last];
      assert front[i] == manifest[i];
      ScopeTableLastWins(front, i);
    }
  }

  /** Every record other than `-1` reads successfully (the source panics on the first that does not). */
  predicate AllScopesRead<T>(manifest: seq<SettingPath>, files: FileSystem, schema: Schema<T>)
    requires schema.WellFormed()
  {
    forall i | 0 <= i < |manifest| && manifest[i].id != GLOBAL_ID ::
      ReadModpackSettings(manifest[i].id, manifest[i].modpackPath, files, schema).Ok?
  }

  /** A modpack manager holds what its settings file gives, for its own id and directory. */
  ghost predicate Loaded<T>(m: ModpackSettingManager<T>, files: FileSystem, schema: Schema<T>)
    reads m.setting
    requires schema.WellFormed()
  {
    && m.setting.Valid() && m.setting.schema == schema
    && ReadModpackSettings(m.id, m.modpackPath, files, schema) == Ok(m.setting.items)
  }

  /** The table of modpack managers matches the scope table of `manifest`. */
  ghost predicate TableOf<T>(settings: map<i32, ModpackSettingManager<T>>, manifest: seq<SettingPath>,
                             files: FileSystem, schema: Schema<T>)
    reads set id | id in settings :: settings[id].setting
    requires schema.WellFormed()
  {
    && settings.Keys == ScopeTable(manifest).Keys
    && (forall id | id in settings ::
          settings[id].id == id && settings[id].modpackPath == ScopeTable(manifest)[id] && Loaded(settings[id], files, schema))
    && (forall a, b | a in settings && b in settings && a != b :: settings[a].setting != settings[b].setting)
  }

  /** One step of the start-up loop keeps the table matching the records read so far. */
  lemma TableStep<T>(settings: map<i32, ModpackSettingManager<T>>, manifest: seq<SettingPath>, i: nat,
                     files: FileSystem, schema: Schema<T>, m: ModpackSettingManager<T>)
    requires schema.WellFormed() && i < |manifest| && manifest[i].id != GLOBAL_ID
    requires TableOf(settings, manifest[..i], files, schema)
    requires m.id == manifest[i].id && m.modpackPath == manifest[i].modpackPath && Loaded(m, files, schema)
    requires forall id | id in settings :: settings[id].setting != m.setting
    ensures TableOf(settings[manifest[i].id := m], manifest[..i + 1], files, schema)
  {
    assert manifest[..i + 1][..i] == manifest[..i];
    assert ScopeTable(manifest[..i + 1]) == ScopeTable(manifest[..i])[manifest[i].id := manifest[i].modpackPath];
  }

  /** Extending the records read so far by one that is `-1` or reads successfully. */
  lemma ReadStep<T>(manifest: seq<SettingPath>, i: nat, files: FileSystem, schema: Schema<T>)
    requires schema.WellFormed() && i < |manifest| && AllScopesRead(manifest[..i], files, schema)
    requires manifest[i].id != GLOBAL_ID ==>
               ReadModpackSettings(manifest[i].id, manifest[i].modpackPath, files, schema).Ok?
    ensures AllScopesRead(manifest[..i + 1], files, schema)
  {
    var front, next := manifest[..i], manifest[..i + 1];
    forall k | 0 <= k < |next| && next[k].id != GLOBAL_ID
      ensures ReadModpackSettings(next[k].id, next[k].modpackPath, files, schema).Ok?
    {
      if k < i {
        assert next[k] == front[k];
      }
    }
  }

  /** A `-1` record leaves the table as it was. */
  lemma SkipStep<T>(settings: map<i32, ModpackSettingManager<T>>, manifest: seq<SettingPath>, i: nat,
                    files: FileSystem, schema: Schema<T>)
    requires schema.WellFormed() && i < |manifest| && manifest[i].id == GLOBAL_ID
    requires TableOf(settings, manifest[..i], files, schema)
    ensures TableOf(settings, manifest[..i + 1], files, schema)
  {
    assert manifest[..i + 1][..i] == manifest[..i];
    assert ScopeTable(manifest[..i + 1]) == ScopeTable(manifest[..i]);
  }

  /**
   * The loop of `Setting::create`: every record other than `-1` is read into a modpack
   * manager and inserted under its id.
   */
  method ReadScopes<T>(manifest: seq<SettingPath>, files: FileSystem, schema: Schema<T>)
    returns (r: Result<map<i32, ModpackSettingManager<T>>, Error>)
    requires schema.WellFormed()
    ensures r.Ok? <==> AllScopesRead(manifest, files, schema)
    ensures r.Ok? ==> TableOf(r.value, manifest, files, schema)
  {
    var settings: map<i32, ModpackSettingManager<T>> := map[];
    var i := 0;
    while i < |manifest|
      invariant 0 <= i <= |manifest|
      invariant TableOf(settings, manifest[..i], files, schema)
      invariant AllScopesRead(manifest[..i], files, schema)
    {
      var s := manifest[i];
      if s.id == GLOBAL_ID {
        SkipStep(settings, manifest, i, files, schema);
        ReadStep(manifest, i, files, schema);
        i := i + 1;
        continue;
      }
      var m := ReadModpackManager(s.id, s.modpackPath, files, schema);
      if m.Err? {
        assert !AllScopesRead(manifest, files, schema) by {
          assert manifest[i].id != GLOBAL_ID;
        }
        return Err(m.error);
      }
      assert forall id | id in settings :: settings[id].setting != m.value.setting;
      TableStep(settings, manifest, i, files, schema, m.value);
      ReadStep(manifest, i, files, schema);
      settings := settings[s.id := m.value];
      i := i + 1;
    }
    assert manifest[..i] == manifest;
    return Ok(settings);
  }

  /** The result of `save()?` after a successful change: the new files, or the error. */
  function SaveOutcome(saved: Result<FileSystem, Error>, files: FileSystem): (Outcome<Error>, FileSystem) {
    match saved
    case Ok(written) => (Pass, written)
    case Err(e) => (Fail(e), files)
  }

  /** `Setting`: the global manager and the modpack managers, with the files they are saved to. */
  class Setting<T> {
    const globle: SettingManager<T>
    var settings: map<i32, ModpackSettingManager<T>>
    var files: FileSystem

    /** The modpack stores. */
    ghost function Scopes(): set<ModpackSettingDerive.ModpackStore<T>>
      reads this
    {
      set id | id in settings :: settings[id].setting
    }

    ghost predicate Valid()
      reads this, globle.setting, Scopes()
    {
      && globle.id == GLOBAL_ID && globle.setting.Valid()
      && GLOBAL_ID !in settings
      && (forall id | id in settings :: settings[id].id == id && settings[id].setting.Valid())
      && (forall a, b | a in settings && b in settings && a != b :: settings[a].setting != settings[b].setting)
    }

    constructor (globle: SettingManager<T>, settings: map<i32, ModpackSettingManager<T>>, files: FileSystem)
      requires globle.id == GLOBAL_ID && globle.setting.Valid() && GLOBAL_ID !in settings
      requires forall id | id in settings :: settings[id].id == id && settings[id].setting.Valid()
      requires forall a, b | a in settings && b in settings && a != b :: settings[a].setting != settings[b].setting
      ensures Valid() && this.globle == globle && this.settings == settings && this.files == files
    {
      this.globle := globle;
      this.settings := settings;
      this.files := files;
    }

    /** `get(id)`: the modpack manager registered under `id`. */
    function Get(id: i32): (r: Option<ModpackSettingManager<T>>)
      reads this
      ensures r.Some? <==> id in settings
      ensures r.Some? ==> r.value == settings[id]
    {
      if id in settings then Some(settings[id]) else None
    }

    /** `get(-1)` finds nothing: `-1` is never entered in the table. */
    lemma GetGlobalIsNone()
      requires Valid()
      ensures Get(GLOBAL_ID).None?
    {
    }

    /**
     * `Setting::create`: reads every manifest record other than `-1` into a modpack manager
     * and enters it under its id, then reads the global manager.  A failing read, a panic
     * in the source, is an error here.
     */
    static method Create(manifest: seq<SettingPath>, configDir: Path, files: FileSystem,
                         globalSchema: Schema<T>, scopeSchema: Schema<T>) returns (r: Result<Setting<T>, Error>)
      requires globalSchema.WellFormed() && scopeSchema.WellFormed()
      ensures r.Ok? <==> AllScopesRead(manifest, files, scopeSchema)
                         && ReadSettings(GLOBAL_ID, configDir, files, globalSchema).Ok?
      ensures r.Ok? ==>
                && fresh(r.value) && r.value.Valid() && r.value.files == files
                && r.value.globle.modpackPath == configDir && r.value.globle.setting.schema == globalSchema
                && r.value.globle.setting.items == ReadSettings(GLOBAL_ID, configDir, files, globalSchema).value
                && r.value.settings.Keys == ScopeTable(manifest).Keys
                && forall id | id in r.value.settings ::
                     && r.value.settings[id].modpackPath == ScopeTable(manifest)[id]
                     && r.value.settings[id].setting.schema == scopeSchema
                     && ReadModpackSettings(id, ScopeTable(manifest)[id], files, scopeSchema)
                        == Ok(r.value.settings[id].setting.items)
    {
      var scopes := ReadScopes(manifest, files, scopeSchema);
      if scopes.Err? {
        return Err(scopes.error);
      }
      ScopeTableKeys(manifest);
      var g := ReadManager(GLOBAL_ID, configDir, files, globalSchema);
      if g.Err? {
        return Err(g.error);
      }
      var setting := new Setting(g.value, scopes.value, files);
      return Ok(setting);
    }

    /**
     * `change(id, name, value)`: `-1` changes the global store and saves the global file;
     * a registered id changes that modpack's store, reading the global store as fallback,
     * and saves that modpack's file; any other id is "Setting manager not found".  When
     * the item change fails nothing is saved.
     */
    method Change(id: i32, name: string, value: seq<string>) returns (outcome: Outcome<Error>)
      requires Valid()
      modifies this, globle.setting, Scopes()
      ensures Valid() && settings == old(settings)
      ensures id == GLOBAL_ID ==>
                var c := SettingDerive.ChangeItem(globle.setting.schema, old(globle.setting.items), name, value);
                && globle.setting.items == c.items
                && (forall k | k in settings :: settings[k].setting.items == old(settings[k].setting.items))
                && (c.outcome.Fail? ==> outcome == c.outcome && files == old(files))
                && (c.outcome.Pass? ==> (outcome, files) == SaveOutcome(globle.Save(old(files)), old(files)))
      ensures id != GLOBAL_ID && id in settings ==>
                var m := settings[id];
                var c := ModpackSettingDerive.ChangeItem(m.setting.schema, old(m.setting.items), name, value,
                                                         globle.setting.schema, globle.setting.items);
                && m.setting.items == c.items
                && globle.setting.items == old(globle.setting.items)
                && (forall k | k in settings && k != id :: settings[k].setting.items == old(settings[k].setting.items))
                && (c.outcome.Fail? ==> outcome == c.outcome && files == old(files))
                && (c.outcome.Pass? ==> (outcome, files) == SaveOutcome(m.Save(old(files)), old(files)))
      ensures id != GLOBAL_ID && id !in settings ==>
                && outcome == Fail(ManagerNotFound(id))
                && files == old(files)
                && globle.setting.items == old(globle.setting.items)
                && (forall k | k in settings :: settings[k].setting.items == old(settings[k].setting.items))
    {
      if id == GLOBAL_ID {
        outcome := ChangeGlobal(name, value);
      } else if id in settings {
        outcome := ChangeScope(id, name, value);
      } else {
        outcome := Fail(ManagerNotFound(id));
      }
    }

    /** The `-1` branch of `change`. */
    method ChangeGlobal(name: string, value: seq<string>) returns (outcome: Outcome<Error>)
      requires Valid()
      modifies this`files, globle.setting
      ensures Valid()
      ensures var c := SettingDerive.ChangeItem(globle.setting.schema, old(globle.setting.items), name, value);
              && globle.setting.items == c.items
              && (c.outcome.Fail? ==> outcome == c.outcome && files == old(files))
              && (c.outcome.Pass? ==> (outcome, files) == SaveOutcome(globle.Save(old(files)), old(files)))
      ensures settings == old(settings)
      ensures forall k | k in settings :: settings[k].setting.items == old(settings[k].setting.items)
    {
      outcome := globle.setting.Change(name, value);
      assert forall k | k in settings :: settings[k].setting.items == old(settings[k].setting.items)
                                         && settings[k].setting.Valid();
      if outcome.Fail? {
        return;
      }
      var saved := globle.Save(files);
      outcome, files := SaveOutcome(saved, files).0, SaveOutcome(saved, files).1;
    }

    /** The branch of `change` for a registered modpack id. */
    method ChangeScope(id: i32, name: string, value: seq<string>) returns (outcome: Outcome<Error>)
      requires Valid() && id in settings
      modifies this`files, settings[id].setting
      ensures Valid()
      ensures var m := settings[id];
              var c := ModpackSettingDerive.ChangeItem(m.setting.schema, old(m.setting.items), name, value,
                                                       globle.setting.schema, globle.setting.items);
              && m.setting.items == c.items
              && (c.outcome.Fail? ==> outcome == c.outcome && files == old(files))
              && (c.outcome.Pass? ==> (outcome, files) == SaveOutcome(m.Save(old(files)), old(files)))
    ensures globle.setting.items == old(globle.setting.items)
      ensures settings == old(settings)
      ensures forall k | k in settings && k != id :: settings[k].setting.items == old(settings[k].setting.items)
    {
      var m := settings[id];
      outcome := m.setting.Change(name, value, globle.setting);
      if outcome.Fail? {
        return;
      }
      var saved := m.Save(files);
      outcome, files := SaveOutcome(saved, files).0, SaveOutcome(saved, files).1;
    }
  }
}
