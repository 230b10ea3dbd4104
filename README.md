# rev-launcher settings engine, modelled in Dafny

This project models the layered settings engine of the rev-launcher desktop
application. The engine has one global settings store and a set of per-modpack
stores. A modpack store either overrides an item locally (`Some`) or inherits
the global store's item of the same name (`None`).

The model covers the following parts of the engine:

- **Versions** (`version.dfy`): the `Version` value with its equality, ordering
  and `Display` rendering. The ordering is proved to equal an independent
  lexicographic order. It is also antisymmetric and transitive. The rendering
  is proved readable back up to the components it shows.
- **Items** (`items.dfy`): the contract every setting item satisfies: `read`,
  `write`, `send` and `receive`, kept as a record of function values. It also
  holds `read_modpack` and the field list of a settings struct.
- **SettingDerive** (`setting_derive.dfy`): the methods `#[derive(Setting)]`
  generates (`read`, `create`, `save`, `get`, `change`). The global store is a
  class whose `change` updates its items in place.
- **ModpackSettingDerive** (`modpack_setting_derive.dfy`): the methods
  `#[derive(ModpackSetting)]` generates. These include the fallback `get` and
  the materialise-on-write `change`, which copies the global item, changes the
  copy and keeps it as an override.
- **JavaVersions** (`java_versions.dfy`): the one concrete item. Its serde
  encoding is proved to round-trip. First-run loading is modelled with the
  environment passed in as a parameter.
- **Managers** (`setting_manager.rs`, in `setting_manager.dfy`): settings file
  paths, reading a manager at start-up and saving it.
- **Registry** (`setting.dfy`): the `Setting` registry. It covers the start-up
  scope table built from the manifest and the routing `change`, which saves
  only the file it touched.
- **Commands** (`lib.dfy`): the `get_setting_value` command.

The file system is a map from paths to contents, and a path is a list of
components. Saving replaces the map. JSON is an abstract value type with
integer numbers.

Where the source leaves a choice open, the model decides as follows:

- `Display` writes `-` before the pre-release (version.rs:58-60).
- `get_setting_value(-1, ..)` looks only in the modpack table, so it always
  fails, although `-1` names the global store everywhere else, as in
  `Setting::change`. See "## Findings".
- An unknown id fails with "Setting manager not found for id".
  `get_setting_value` reports every failure as the single message
  "err get setting value".
- `ModpackSettingManager` and `read_modpack` are used by the source but not
  defined in it. The model defines them as follows:
  - `Managers.ModpackSettingManager` mirrors `SettingManager`. It reads
    `<dir>/rev/settings.json` when that file exists. Otherwise it starts with
    every field `None`.
  - `Items.ReadModpack` maps an absent key to `None`. For a present key it
    calls `read(Some(..))`.
- `setting.rs:80` calls `SettingManager::read()` with no arguments. This is
  modelled as `read(-1, configDir)`.
- `setting.rs:90` calls the modpack `change` without the global store. The
  derive at `modpack_setting_derive.rs:50` requires it, so the model passes it.
- `setting.rs:87` and `setting.rs:90` call `get_setting_mut().change(..)`.
  The source has neither `get_setting_mut` nor a `change` on the hand-written
  `Settings` (setting_manager.rs:77-106). The model gives `Settings` the
  `change` that `#[derive(Setting)]` generates (`SettingDerive.ChangeItem`)
  and reaches the store through the manager's field.

## Model

| member | source | states |
|---|---|---|
| Versions.Eq | src-tauri/src/api/version.rs:8-12 | `eq` holds exactly when the (major, rank of minor, rank of patch) triples agree |
| Versions.Cmp | src-tauri/src/api/version.rs:22-47 | `cmp` answers `Equal` exactly when `eq` holds, so `Ord` agrees with `PartialEq` |
| Versions.CmpIsLexicographic | src-tauri/src/api/version.rs:22-47 | `cmp` is the lexicographic order on (major, minor, patch), with an absent minor or patch ranked below every present one |
| Versions.EqIgnoresPreRelease | src-tauri/src/api/version.rs:8-12 | two versions are equal iff they agree once the pre-release is dropped |
| Versions.CmpByMajor | src-tauri/src/api/version.rs:24-26 | different majors decide the order on their own |
| Versions.CmpByMinor | src-tauri/src/api/version.rs:27-35 | with equal majors, an absent minor is Less, a present one against absent is Greater, and two present minors compare numerically |
| Versions.CmpByPatch | src-tauri/src/api/version.rs:36-44 | with equal major and minor, patch decides in the same way |
| Versions.CmpAntisymmetric | src-tauri/src/api/version.rs:16-47 | swapping the arguments reverses the ordering |
| Versions.CmpTransitive | src-tauri/src/api/version.rs:22-47 | `<=` and `<` are transitive, as `Ord` requires |
| Versions.OrdExamples | src-tauri/src/api/version.rs:102-145 | the three comparisons of `ord_test` |
| Versions.NumberText | src-tauri/src/api/version.rs:51-55 | a number renders as a non-empty run of decimal digits |
| Versions.Display | src-tauri/src/api/version.rs:49-62 | the rendering starts with a digit; without a pre-release it is digits and dots only; with one it ends in `-` and the pre-release |
| Versions.DisplayExamples | src-tauri/src/api/version.rs:67-100 | the four renderings of `display_test` |
| Versions.DisplayRoundTrip | src-tauri/src/api/version.rs:49-62 | reading a rendering back gives exactly the numbers shown and the pre-release |
| Versions.DisplayHidesPatchWithoutMinor | src-tauri/src/api/version.rs:52-57 | with no minor, the patch is not rendered |
| Versions.DisplayDeterminesShown | src-tauri/src/api/version.rs:49-62 | two versions that render alike have the same shown components and pre-release |
| Items.ReadModpack | src-tauri/setting-derive/src/modpack_setting_derive.rs:18 | an absent key inherits (`None`); a present one is `read(Some(..))` wrapped in `Some`, and its error is passed on |
| SettingDerive.ReadFields | src-tauri/setting-derive/src/setting_derive.rs:20-25 | reading fields in order gives one item per field, each its `read` of its key; it fails iff some field's read fails, and the error is the first failing field's |
| SettingDerive.ReadItems | src-tauri/setting-derive/src/setting_derive.rs:20-25 | `read` succeeds iff every field reads, and then holds exactly one item per field, each its `read` of its key of the object |
| SettingDerive.CreateItems | src-tauri/setting-derive/src/setting_derive.rs:26-30 | `create` fills every field |
| SettingDerive.CreateIsReadOfEmpty | src-tauri/setting-derive/src/setting_derive.rs:26-30 | `create()` equals `read` of an object with no keys |
| SettingDerive.SaveItems | src-tauri/setting-derive/src/setting_derive.rs:31-35 | `save` succeeds iff every field's `write` does, and gives an object with exactly one key per field, valued that `write` |
| SettingDerive.GetItem | src-tauri/setting-derive/src/setting_derive.rs:36-41 | a field answers with its item's `send`; any other name is "Item not found" |
| SettingDerive.SaveReadRoundTrip | src-tauri/setting-derive/src/setting_derive.rs:20-35 | when every item reads back its own `write`, `save` succeeds and `read` of its object gives the same items |
| SettingDerive.ChangeItem | src-tauri/setting-derive/src/setting_derive.rs:42-50 | `change` applies `receive` to the named item and returns its outcome; other items are untouched; an unknown name is "Item not found" with nothing changed |
| SettingDerive.GetAfterChange | src-tauri/setting-derive/src/setting_derive.rs:36-50 | after a change, `get` of that name sends the received item, and every other name answers as before |
| SettingDerive.Store.Change | src-tauri/setting-derive/src/setting_derive.rs:42-50 | the in-place `change` leaves the store exactly as `ChangeItem` describes and keeps it well formed |
| ModpackSettingDerive.ReadFields | src-tauri/setting-derive/src/modpack_setting_derive.rs:17-25 | each field is its `read_modpack` of its key; it fails iff some field's `read_modpack` fails |
| ModpackSettingDerive.ReadItems | src-tauri/setting-derive/src/modpack_setting_derive.rs:17-25 | `read` fails iff some present key's strict `read` fails; otherwise an absent key inherits and a present key becomes an override equal to its strict `read` |
| ModpackSettingDerive.CreateItems | src-tauri/setting-derive/src/modpack_setting_derive.rs:26-30 | `create` gives every field and no override |
| ModpackSettingDerive.SaveItems | src-tauri/setting-derive/src/modpack_setting_derive.rs:31-40 | `save` writes a key exactly for each overriding field, valued its `write`, and fails iff one of those writes fails |
| ModpackSettingDerive.GetItem | src-tauri/setting-derive/src/modpack_setting_derive.rs:41-49 | an override answers with its own `send`; an inheriting field with the global store's `get`; a name that is not a field is "Item not found" |
| ModpackSettingDerive.SaveReadRoundTrip | src-tauri/setting-derive/src/modpack_setting_derive.rs:17-40 | when every override reads back its own `write`, `save` succeeds and `read` of its object gives the same overrides, with every other field inheriting again |
| ModpackSettingDerive.ChangeItem | src-tauri/setting-derive/src/modpack_setting_derive.rs:50-64 | an override receives in place; an inherited field fails with the global `get`'s error, else with the `read(Some(..))` error, else with `receive`'s outcome, and becomes `Some` of the received copy exactly when all three pass, staying inheriting otherwise; other fields are untouched |
| ModpackSettingDerive.CreatedInheritsAll | src-tauri/setting-derive/src/modpack_setting_derive.rs:26-49 | a store just created answers every field with the global store's `get` |
| ModpackSettingDerive.InheritedFollowsGlobal | src-tauri/setting-derive/src/modpack_setting_derive.rs:41-49 | an inheriting field answers with the global store's `get`, whatever the global items are |
| ModpackSettingDerive.MaterializeCopiesGlobal | src-tauri/setting-derive/src/modpack_setting_derive.rs:50-61 | a successful change of an inherited field keeps the global item with `receive` applied, and later `get`s no longer consult the global store |
| ModpackSettingDerive.FailedMaterializeKeepsInheriting | src-tauri/setting-derive/src/modpack_setting_derive.rs:53-60 | if materialising fails at any `?`, the store is unchanged and still inherits |
| ModpackSettingDerive.UnknownNameNotFound | src-tauri/setting-derive/src/modpack_setting_derive.rs:41-64 | a name that is not a field makes both `get` and `change` fail with "Item not found", changing nothing |
| ModpackSettingDerive.ModpackStore.Change | src-tauri/setting-derive/src/modpack_setting_derive.rs:50-64 | the in-place `change` leaves the store as `ChangeItem` describes and does not touch the global store |
| JavaVersions.New | src-tauri/src/settings/java_versions.rs:31-36 | no versions, selection 0 |
| JavaVersions.Encode | src-tauri/src/settings/java_versions.rs:18-28 | the serialised struct is an object with exactly the keys `versions` and `select`, one array element per entry |
| JavaVersions.Decode | src-tauri/src/settings/java_versions.rs:18-28 | a successful decoding comes from an object with `versions` and `select`, one entry per array element, and `select` the number found |
| JavaVersions.AddVersion | src-tauri/src/settings/java_versions.rs:38-40 | `add_version` appends exactly one entry and keeps the rest and the selection |
| JavaVersions.RoundTrip | src-tauri/src/settings/java_versions.rs:18-28 | deserialising the serialised struct gives it back |
| JavaVersions.LoadPathVersions | src-tauri/src/settings/java_versions.rs:43-59 | at most one entry, selection 0; the entry is there iff `which`, the probe and the parse all succeed, and then it is that path and version |
| JavaVersions.LoadFileVersion | src-tauri/src/settings/java_versions.rs:61-74 | a config-dir error is passed on; an existing `java_versions.json` is deserialised; otherwise the PATH scan is used |
| JavaVersions.Read | src-tauri/src/settings/java_versions.rs:78-86 | `read(Some(v))` deserialises `v`; `read(None)` loads on first run |
| JavaVersions.Write | src-tauri/src/settings/java_versions.rs:87-90 | `write` succeeds and its value deserialises back to the same struct |
| JavaVersions.OpsRereads | src-tauri/src/settings/java_versions.rs:87-94 | `write` and `send` agree, and `read(Some(send(x)))` gives `x` back |
| Managers.SettingFileInDirectory | src-tauri/src/settings/setting_manager.rs:52-58 | the settings file lies in its directory: `rev/settings.json` for a modpack, `setting.json` for the global store |
| Managers.ScopeFileIsNotGlobalFile | src-tauri/src/settings/setting_manager.rs:52-58 | a modpack's settings file is never the global settings file, whatever the directories |
| Managers.Written | src-tauri/src/settings/setting_manager.rs:60-70 | saving writes the `save()` object to exactly that path and leaves every other file; an error from `save()` writes nothing |
| Managers.SettingManager.SaveThenRead | src-tauri/src/settings/setting_manager.rs:60-70 | when every item reads back its own `write`, `save` succeeds, reading the manager back gives the same items, and no other file changes |
| Managers.ModpackSettingManager.SaveThenRead | src-tauri/src/settings/setting_manager.rs:60-70 | the same for a modpack manager: the overrides come back and every other field inherits again |
| Managers.ReadSettings | src-tauri/src/settings/setting_manager.rs:19-35 | an existing settings file is read with `Settings::read`; a missing one gives `Settings::create`; an unparseable one fails |
| Managers.ReadManager | src-tauri/src/settings/setting_manager.rs:19-41 | `read` succeeds iff the items read, and gives a fresh store with that id, directory and those items |
| Managers.CreateManager | src-tauri/src/settings/setting_manager.rs:43-50 | `create` gives a fresh store with that id and directory and the `create()` items |
| Managers.ReadModpackSettings | src-tauri/src/settings/setting.rs:71-76 | a modpack's existing `rev/settings.json` is read with the override `read`; a missing one gives no overrides; an unparseable one fails |
| Managers.ReadModpackManager | src-tauri/src/settings/setting.rs:71-76 | the modpack manager read succeeds iff its items read, and gives a fresh store holding them |
| Managers.SettingsSchema | src-tauri/src/settings/setting_manager.rs:77-79 | `Settings` has exactly the one field `java` |
| Managers.SettingsSave | src-tauri/src/settings/setting_manager.rs:92-98 | `Settings::save` is the object `{"java": ..}` holding the serialised `JavaVersions` |
| Managers.SettingsGet | src-tauri/src/settings/setting_manager.rs:100-105 | `get("java")` is the serialised item; any other name is "Item not found" |
| Managers.SettingsRead | src-tauri/src/settings/setting_manager.rs:81-90 | `Settings::read` takes `java` from the `"java"` key and fails when that read fails; `Settings::create` is reading with the key absent |
| Registry.ScopeTable | src-tauri/src/settings/setting.rs:64-77 | the table the loop builds never holds `-1` |
| Registry.ScopeTableKeys | src-tauri/src/settings/setting.rs:64-77 | the table holds exactly the manifest's ids other than `-1` |
| Registry.ScopeTableLastWins | src-tauri/src/settings/setting.rs:66-77 | for a repeated id, the last record's directory wins |
| Registry.ReadScopes | src-tauri/src/settings/setting.rs:64-77 | the start-up loop succeeds iff every non-global record reads, and then gives one manager per table id, each on its own store, holding what its file gives |
| Registry.Setting.Get | src-tauri/src/settings/setting.rs:36-38 | `get(id)` finds a manager iff `id` is registered, and it is that manager |
| Registry.Setting.GetGlobalIsNone | src-tauri/src/settings/setting.rs:66-70 | `get(-1)` finds nothing, since `-1` is never entered |
| Registry.Setting.Create | src-tauri/src/settings/setting.rs:44-83 | `create` succeeds iff every scope and the global store read; the registry then holds the global store from the config directory and one manager per table id with what its file gives |
| Registry.Setting.Change | src-tauri/src/settings/setting.rs:85-96 | `-1` changes only the global store; a registered id changes only its own store, reads the global one as fallback and leaves it unchanged; the touched file is saved only when the change passed; any other id is "Setting manager not found" with nothing changed |
| Registry.Setting.ChangeGlobal | src-tauri/src/settings/setting.rs:86-88 | the global branch: `ChangeItem` on the global store, then its file saved iff that passed |
| Registry.Setting.ChangeScope | src-tauri/src/settings/setting.rs:89-91 | the modpack branch: the override `ChangeItem` against the global store, then that modpack's file saved iff that passed |
| Commands.GetSettingValue | src-tauri/src/lib.rs:10-20 | succeeds iff the id is registered and that store's `get` succeeds, with that value; every failure is "err get setting value" |
| Commands.CauseIsErased | src-tauri/src/lib.rs:14-19 | an unknown id and an unknown item name give the same error |
| Commands.GlobalIdAlwaysFails | src-tauri/src/lib.rs:14-19 | as written, `get_setting_value(-1, ..)` always fails |
| Commands.GetSettingValueRouted | src-tauri/src/lib.rs:11-20 | corrected: `-1` answers with the global store's `get`, and every other id as written |
| Commands.RoutedReadsInheritedAsGlobal | src-tauri/src/lib.rs:11-20 | with `-1` routed, a modpack that inherits an item reads the same as the global scope |

## Left out

- `Setting::instance` (the `OnceLock` and `RwLock` around the registry) is left out. It concerns concurrency and lazy initialisation, which the model does not cover.
- Reading and creating the manifest `id_setting.json` (setting.rs:45-63) is left out because it is file I/O. The manifest is a parameter of `Registry.Setting.Create`. The `expect` and `unwrap` panics on a failed read become `Err` results.
- `PathBuf::from_str` of a manifest path is left out. Paths are lists of components, and directories are kept abstract.
- `get_globle`, `get_globle_mut`, `get_mut` (setting.rs:28-42) and `get_setting` (setting_manager.rs:72-74) are plain accessors. The model reads the fields directly. `get_setting_mut` is called at setting.rs:87 and setting.rs:90 but defined nowhere. The model reads the manager's `setting` field instead.
- Directory creation is not modelled. Saving is one map update, and the model does not include write failures or `to_string_pretty` formatting.
- `dirs::get_config_dirs` is not part of this model. It is a parameter: the environment's `configDir` and the `configDir` of `Create`.
- `get_java_version` runs a process, and `which` searches PATH. Both are parameters of the environment (`probe`, `whichJava`).
- `Version::from_string` does not appear in version.rs, so it is not modelled. It is a parameter (`parseVersion`).
- `JavaVersions::receive` is `todo!()` in the source. It is a parameter, and the model assumes nothing about it.
- JavaVersions.Read: serde's sequence form of a struct is not decoded. Only the object form is supported, along with rejection of unknown types.
- Floating-point JSON numbers are not modelled. Numbers are integers, because the settings hold only integers.
- The derive macros' token plumbing (`expand`, `get_fields`, `get_option_fields`, the proc-macro entry points) is compile-time code and is left out. A struct is given by its field list. The macro's panic on a non-`Option` field becomes the type `map<string, Option<T>>`.
- The `SettingTrait` declaration in setting_trait.rs:4-11 (`read_from_file`, `write_to_file`, and a `send` that returns a name and a value) is not modelled. The code builds on a different set of methods: `read`, `write`, `send` and `receive`, as `JavaVersions` implements them at java_versions.rs:77-99. The `ItemOps` record follows that set.
- The TypeScript front end and the Tauri builder `run` are not part of this model.
- JavaVersions.AddVersion is modelled on values. `JavaVersions` is owned by its store and never aliased, so an in-place push and a value replacement cannot be told apart.
- JavaVersions.Encode: version.rs:1-6 shows no `Serialize` or `Deserialize` on `Version`. The serde-derived object form (`major`, `minor`, `patch`, `pre_release`) is assumed for it, as `JavaVersion`'s derive at java_versions.rs:18 requires.
- Items.Schema gives every field of a settings struct the same item type `T`, while the derives allow a different type per field. The one struct in the source, `Settings`, has a single field, so nothing in it depends on mixing types.

## Findings

| source | as written | input that shows it | evidently intended | confidence | as-written member | corrected member |
|---|---|---|---|---|---|---|
| src-tauri/src/lib.rs:14-19 | `get_setting_value` looks up the id only in the modpack table, where `-1` is never entered | `id = -1` with any item name, for example `"java"` | `-1` reads the global store, as `Setting::change` routes it | low to medium, not executed | Commands.GlobalIdAlwaysFails | Commands.GetSettingValueRouted |
