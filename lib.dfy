/** The command the front end calls to read a setting. */
module Commands {
  import opened Wrappers
  import Json
  import SettingDerive
  import ModpackSettingDerive
  import opened Managers
  import Registry

  /** The one message every failure of `get_setting_value` is reported as. */
  const GET_ERROR: string := "err get setting value"

  /** What the modpack store registered under `id` answers for `itemName`, the global store as fallback. */
  function ScopedGet<T>(setting: Registry.Setting<T>, id: i32, itemName: string): Result<Json.Value, Error>
    reads setting, setting.globle.setting, setting.Scopes()
    requires setting.Valid() && id in setting.settings
  {
    var m := setting.settings[id];
    ModpackSettingDerive.GetItem(m.setting.schema, m.setting.items, itemName,
                                 setting.globle.setting.schema, setting.globle.setting.items)
  }

  /**
   * `get_setting_value(id, item_name)`, as written: succeeds only when `id` is in the
   * table and that store's `get` succeeds; every failure is the same message.
   */
  function GetSettingValue<T>(setting: Registry.Setting<T>, id: i32, itemName: string): (r: Result<Json.Value, string>)
    reads setting, setting.globle.setting, setting.Scopes()
    requires setting.Valid()
    ensures r.Ok? <==> id in setting.settings && ScopedGet(setting, id, itemName).Ok?
    ensures r.Ok? ==> r.value == ScopedGet(setting, id, itemName).value
    ensures r.Err? ==> r.error == GET_ERROR
  {
    match setting.Get(id)
    case Some(manager) =>
      var value := ModpackSettingDerive.GetItem(manager.setting.schema, manager.setting.items, itemName,
                                                setting.globle.setting.schema, setting.globle.setting.items);
      if value.Ok? then Ok(value.value) else Err(GET_ERROR)
    case None => Err(GET_ERROR)
  }

  /** An unknown id and an unknown item name give the same answer: the cause is not reported. */
  lemma CauseIsErased<T>(setting: Registry.Setting<T>, unknownId: i32, id: i32, itemName: string, unknownName: string)
    requires setting.Valid() && unknownId !in setting.settings && id in setting.settings
    requires unknownName !in setting.settings[id].setting.schema.ops
    ensures GetSettingValue(setting, unknownId, itemName) == Err(GET_ERROR)
    ensures GetSettingValue(setting, id, unknownName) == Err(GET_ERROR)
  {
  }

  /** As written, `get_setting_value(-1, ..)` always fails, though `-1` names the global store. */
  lemma GlobalIdAlwaysFails<T>(setting: Registry.Setting<T>, itemName: string)
    requires setting.Valid()
    ensures GetSettingValue(setting, GLOBAL_ID, itemName) == Err(GET_ERROR)
  {
  }

  /** `get_setting_value` with `-1` routed to the global store's `get`, as `change` routes it. */
  function GetSettingValueRouted<T>(setting: Registry.Setting<T>, id: i32, itemName: string): (r: Result<Json.Value, string>)
    reads setting, setting.globle.setting, setting.Scopes()
    requires setting.Valid()
    ensures id == GLOBAL_ID ==>
              var g := SettingDerive.GetItem(setting.globle.setting.schema, setting.globle.setting.items, itemName);
              (r.Ok? <==> g.Ok?) && (r.Ok? ==> r.value == g.value)
    ensures id != GLOBAL_ID ==> r == GetSettingValue(setting, id, itemName)
    ensures r.Err? ==> r.error == GET_ERROR
  {
    if id == GLOBAL_ID then
      var value := SettingDerive.GetItem(setting.globle.setting.schema, setting.globle.setting.items, itemName);
      if value.Ok? then Ok(value.value) else Err(GET_ERROR)
    else GetSettingValue(setting, id, itemName)
  }

  /**
   * With the routing corrected, every item the global store holds can be read through
   * `-1`, and a modpack that inherits an item reads the same value as the global scope.
   */
  lemma RoutedReadsInheritedAsGlobal<T>(setting: Registry.Setting<T>, id: i32, itemName: string)
    requires setting.Valid() && id in setting.settings
    requires itemName in setting.settings[id].setting.schema.ops
    requires setting.settings[id].setting.items[itemName].None?
    ensures GetSettingValueRouted(setting, id, itemName) == GetSettingValueRouted(setting, GLOBAL_ID, itemName)
  {
  }
}
