/**
 * The methods `#[derive(ModpackSetting)]` generates for a per-modpack struct whose every
 * field is `Option<T>`: `None` inherits the global store's item of the same name, `Some`
 * is a local override.  `get` falls back to the global store; `change` materialises an
 * inherited field by copying the global value before changing it.
 */
module ModpackSettingDerive {
  import opened Wrappers
  import Json
  import opened Items
  import SettingDerive

  /** Every field of the schema has an entry, either an override or `None`. */
  predicate Populated<T>(schema: Schema<T>, items: map<string, Option<T>>) {
    items.Keys == schema.ops.Keys
  }

  /** The fields that hold a local override. */
  function Overridden<T>(items: map<string, Option<T>>): set<string> {
    set n | n in items && items[n].Some?
  }

  /** `let f = T::read_modpack(json.get("f").cloned())?;` for each field in order. */
  function ReadFields<T>(schema: Schema<T>, fields: seq<string>, json: Json.Value): (r: Result<map<string, Option<T>>, Error>)
    requires SettingDerive.Listed(schema, fields)
    ensures r.Ok? ==> r.value.Keys == set i | 0 <= i < |fields| :: fields[i]
    ensures r.Ok? ==> forall n | n in r.value :: ReadModpack(schema.ops[n], Json.Get(json, n)) == Ok(r.value[n])
    ensures r.Err? <==> exists i | 0 <= i < |fields| :: ReadModpack(schema.ops[fields[i]], Json.Get(json, fields[i])).Err?
    decreases |fields|
  {
    if fields == [] then Ok(map[])
    else
      var name := fields[0];
      match ReadModpack(schema.ops[name], Json.Get(json, name))
      case Err(e) => Err(e)
      case Ok(item) =>
        match ReadFields(schema, fields[1..], json)
        case Err(e) =>
          assert forall i | 0 <= i < |fields| - 1 :: fields[1..][i] == fields[i + 1];
          Err(e)
        case Ok(rest) =>
          assert (set i | 0 <= i < |fields| :: fields[i]) == {name} + set i | 0 <= i < |fields| - 1 :: fields[1..][i];
          Ok(rest[name := item])
  }

  /** `read(json)`: a key that is present is an override read strictly; a missing key inherits. */
  function ReadItems<T>(schema: Schema<T>, json: Json.Value): (r: Result<map<string, Option<T>>, Error>)
    requires schema.WellFormed()
    ensures r.Err? <==> exists n | n in schema.ops :: Json.Get(json, n).Some? && schema.ops[n].read(Json.Get(json, n)).Err?
    ensures r.Ok? ==> Populated(schema, r.value)
    ensures r.Ok? ==> forall n | n in schema.ops ::
              (Json.Get(json, n).None? ==> r.value[n].None?)
              && (Json.Get(json, n).Some? ==> r.value[n].Some? && schema.ops[n].read(Json.Get(json, n)) == Ok(r.value[n].value))
  {
    var r := ReadFields(schema, schema.fields, json);
    assert r.Ok? ==> r.value.Keys == schema.ops.Keys by {
      if r.Ok? {
        forall n | n in schema.ops ensures n in r.value {
          var i :| 0 <= i < |schema.fields| && schema.fields[i] == n;
        }
      }
    }
    assert r.Err? ==> exists n | n in schema.ops :: Json.Get(json, n).Some? && schema.ops[n].read(Json.Get(json, n)).Err? by {
      if r.Err? {
        var i :| 0 <= i < |schema.fields| && ReadModpack(schema.ops[schema.fields[i]], Json.Get(json, schema.fields[i])).Err?;
        assert schema.fields[i] in schema.ops;
      }
    }
    assert (exists n | n in schema.ops :: Json.Get(json, n).Some? && schema.ops[n].read(Json.Get(json, n)).Err?) ==> r.Err? by {
      if exists n | n in schema.ops :: Json.Get(json, n).Some? && schema.ops[n].read(Json.Get(json, n)).Err? {
        var n :| n in schema.ops && Json.Get(json, n).Some? && schema.ops[n].read(Json.Get(json, n)).Err?;
        var i :| 0 <= i < |schema.fields| && schema.fields[i] == n;
        assert ReadModpack(schema.ops[schema.fields[i]], Json.Get(json, schema.fields[i])).Err?;
      }
    }
    r
  }

  /** `create()`: every field `None`, so the new store inherits everything. */
  function CreateItems<T>(schema: Schema<T>): (r: Result<map<string, Option<T>>, Error>)
    ensures r.Ok? && Populated(schema, r.value) && Overridden(r.value) == {}
  {
    Ok(map n | n in schema.ops :: None)
  }

  /** `if let Some(ref item) = self.f { json_data.insert("f", item.write()?); }` for each field in order. */
  function SaveFields<T>(schema: Schema<T>, items: map<string, Option<T>>, fields: seq<string>): (r: Result<map<string, Json.Value>, Error>)
    requires SettingDerive.Listed(schema, fields) && Populated(schema, items)
    ensures r.Ok? ==> r.value.Keys == set i | 0 <= i < |fields| && items[fields[i]].Some? :: fields[i]
    ensures r.Ok? ==> forall n | n in r.value :: schema.ops[n].write(items[n].value) == Ok(r.value[n])
    ensures r.Err? <==> exists i | 0 <= i < |fields| ::
              items[fields[i]].Some? && schema.ops[fields[i]].write(items[fields[i]].value).Err?
    decreases |fields|
  {
    if fields == [] then Ok(map[])
    else
      var name := fields[0];
      var tail := fields[1..];
      assert forall i | 0 <= i < |fields| - 1 :: tail[i] == fields[i + 1];
      assert (set i | 0 <= i < |fields| && items[fields[i]].Some? :: fields[i])
          == (if items[name].Some? then {name} else {}) + set i | 0 <= i < |tail| && items[tail[i]].Some? :: tail[i];
      match items[name]
      case None => SaveFields(schema, items, tail)
      case Some(item) =>
        match schema.ops[name].write(item)
        case Err(e) => Err(e)
        case Ok(j) =>
          match SaveFields(schema, items, tail)
          case Err(e) => Err(e)
          case Ok(rest) => Ok(rest[name := j])
  }

  /** `save()`: an object with a key exactly for each overriding field, valued its `write()`. */
  function SaveItems<T>(schema: Schema<T>, items: map<string, Option<T>>): (r: Result<Json.Value, Error>)
    requires schema.WellFormed() && Populated(schema, items)
    ensures r.Ok? <==> forall n | n in Overridden(items) :: schema.ops[n].write(items[n].value).Ok?
    ensures r.Ok? ==> r.value.Object? && r.value.fields.Keys == Overridden(items)
    ensures r.Ok? ==> forall n | n in Overridden(items) :: Ok(r.value.fields[n]) == schema.ops[n].write(items[n].value)
  {
    var saved := SaveFields(schema, items, schema.fields);
    if saved.Err? then
      assert exists i | 0 <= i < |schema.fields| ::
        items[schema.fields[i]].Some? && schema.ops[schema.fields[i]].write(items[schema.fields[i]].value).Err?;
      Err(saved.error)
    else
      assert saved.value.Keys == Overridden(items) by {
        forall n | n in Overridden(items) ensures n in saved.value {
          var i :| 0 <= i < |schema.fields| && schema.fields[i] == n;
        }
      }
      Ok(Json.Object(saved.value))
  }

  /** Every override's `write` succeeds and reads back as itself through `read(Some(..))`. */
  ghost predicate WritesReadBack<T>(schema: Schema<T>, items: map<string, Option<T>>)
    requires Populated(schema, items)
  {
    forall n | n in Overridden(items) ::
      && schema.ops[n].write(items[n].value).Ok?
      && schema.ops[n].read(Some(schema.ops[n].write(items[n].value).value)) == Ok(items[n].value)
  }

  /**
   * Reading back what `save` produced gives the same store: the overrides come back,
   * and every field that was not saved inherits again.
   */
  lemma SaveReadRoundTrip<T>(schema: Schema<T>, items: map<string, Option<T>>)
    requires schema.WellFormed() && Populated(schema, items) && WritesReadBack(schema, items)
    ensures SaveItems(schema, items).Ok?
    ensures ReadItems(schema, SaveItems(schema, items).value) == Ok(items)
  {
    var saved := SaveItems(schema, items).value;
    forall n | n in schema.ops
      ensures Json.Get(saved, n).None? <==> items[n].None?
      ensures items[n].Some? ==> schema.ops[n].read(Json.Get(saved, n)) == Ok(items[n].value)
    {
      if items[n].Some? {
        assert n in Overridden(items);
        assert Json.Get(saved, n) == Some(saved.fields[n]);
      }
    }
    var r := ReadItems(schema, saved);
    assert r.Ok?;
    forall n | n in schema.ops ensures r.value[n] == items[n] {
      if items[n].Some? {
        assert r.value[n].Some? && schema.ops[n].read(Json.Get(saved, n)) == Ok(r.value[n].value);
      }
    }
    assert r.value == items;
  }

  /**
   * `get(name, globle)`: an overriding field answers with its own `send()`, an inheriting
   * one with `globle.get(name)`; a name that is not a field is "Item not found".
   */
  function GetItem<T>(schema: Schema<T>, items: map<string, Option<T>>, name: string,
                      globalSchema: Schema<T>, globalItems: map<string, T>): (r: Result<Json.Value, Error>)
    requires Populated(schema, items) && SettingDerive.Populated(globalSchema, globalItems)
    ensures name !in schema.ops ==> r == Err(ItemNotFound)
    ensures name in Overridden(items) ==> r == schema.ops[name].send(items[name].value)
    ensures name in schema.ops && name !in Overridden(items) ==>
              r == (if name in globalSchema.ops then globalSchema.ops[name].send(globalItems[name]) else Err(ItemNotFound))
  {
    if name !in schema.ops then Err(ItemNotFound)
    else match items[name]
      case Some(v) => schema.ops[name].send(v)
      case None => SettingDerive.GetItem(globalSchema, globalItems, name)
  }

  /**
   * `change(name, value, globle)`.  An overriding field is changed in place by `receive`.
   * An inheriting field is materialised: the global `get`, then `read(Some(..))` of a
   * fresh item, then `receive` on it, each with `?`; only when all three succeed is the
   * field set to `Some(item)`.  A name that is not a field is "Item not found".
   */
  function ChangeItem<T>(schema: Schema<T>, items: map<string, Option<T>>, name: string, value: seq<string>,
                         globalSchema: Schema<T>, globalItems: map<string, T>): (c: SettingDerive.Changed<map<string, Option<T>>>)
    requires Populated(schema, items) && SettingDerive.Populated(globalSchema, globalItems)
    ensures Populated(schema, c.items)
    ensures name !in schema.ops ==> c == SettingDerive.Changed(items, Fail(ItemNotFound))
    ensures forall n | n in items && n != name :: c.items[n] == items[n]
    ensures name in schema.ops && items[name].Some? ==>
              var received := schema.ops[name].receive(items[name].value, value);
              c.items[name] == Some(received.item) && c.outcome == received.outcome
    ensures name in schema.ops && items[name].None? ==>
              (c.outcome.Pass? <==> c.items[name].Some?) && (c.outcome.Fail? ==> c.items == items)
    ensures name in schema.ops && items[name].None? ==>
              var g := SettingDerive.GetItem(globalSchema, globalItems, name);
              && (g.Err? ==> c.outcome == Fail(g.error))
              && (g.Ok? && schema.ops[name].read(Some(g.value)).Err? ==>
                    c.outcome == Fail(schema.ops[name].read(Some(g.value)).error))
              && (g.Ok? && schema.ops[name].read(Some(g.value)).Ok? ==>
                    var received := schema.ops[name].receive(schema.ops[name].read(Some(g.value)).value, value);
                    && c.outcome == received.outcome
                    && (received.outcome.Pass? ==> c.items == items[name := Some(received.item)]))
  {
    if name !in schema.ops then SettingDerive.Changed(items, Fail(ItemNotFound))
    else match items[name]
      case Some(v) =>
        var received := schema.ops[name].receive(v, value);
        SettingDerive.Changed(items[name := Some(received.item)], received.outcome)
      case None =>
        match SettingDerive.GetItem(globalSchema, globalItems, name)
        case Err(e) => SettingDerive.Changed(items, Fail(e))
        case Ok(globalValue) =>
          match schema.ops[name].read(Some(globalValue))
          case Err(e) => SettingDerive.Changed(items, Fail(e))
          case Ok(copy) =>
            var received := schema.ops[name].receive(copy, value);
            match received.outcome
            case Fail(e) => SettingDerive.Changed(items, Fail(e))
            case Pass => SettingDerive.Changed(items[name := Some(received.item)], Pass)
  }

  /** A store that was just created answers every field from the global store. */
  lemma CreatedInheritsAll<T>(schema: Schema<T>, globalSchema: Schema<T>, globalItems: map<string, T>, name: string)
    requires SettingDerive.Populated(globalSchema, globalItems) && name in schema.ops
    ensures GetItem(schema, CreateItems(schema).value, name, globalSchema, globalItems)
            == SettingDerive.GetItem(globalSchema, globalItems, name)
  {
  }

  /**
   * An inheriting field follows the global store: whatever the global items are, `get`
   * answers with the global store's `get` of that name.
   */
  lemma InheritedFollowsGlobal<T>(schema: Schema<T>, items: map<string, Option<T>>, name: string,
                                  globalSchema: Schema<T>, globalItems: map<string, T>)
    requires Populated(schema, items) && SettingDerive.Populated(globalSchema, globalItems)
    requires name in schema.ops && items[name].None?
    ensures GetItem(schema, items, name, globalSchema, globalItems) == SettingDerive.GetItem(globalSchema, globalItems, name)
  {
  }

  /**
   * Copy, then mutate: when an inheriting field is changed successfully and the global
   * item reads back as itself through `send` and `read`, the new override is exactly
   * the global item with `receive` applied, and from then on `get` no longer looks at
   * the global store.
   */
  lemma MaterializeCopiesGlobal<T>(schema: Schema<T>, items: map<string, Option<T>>, name: string, value: seq<string>,
                                   globalSchema: Schema<T>, globalItems: map<string, T>, laterGlobalItems: map<string, T>)
    requires Populated(schema, items) && SettingDerive.Populated(globalSchema, globalItems)
    requires SettingDerive.Populated(globalSchema, laterGlobalItems)
    requires name in schema.ops && name in globalSchema.ops && items[name].None?
    requires globalSchema.ops[name].send(globalItems[name]).Ok?
    requires schema.ops[name].read(Some(globalSchema.ops[name].send(globalItems[name]).value)) == Ok(globalItems[name])
    requires ChangeItem(schema, items, name, value, globalSchema, globalItems).outcome.Pass?
    ensures var c := ChangeItem(schema, items, name, value, globalSchema, globalItems);
            && c.items[name] == Some(schema.ops[name].receive(globalItems[name], value).item)
            && GetItem(schema, c.items, name, globalSchema, laterGlobalItems)
               == schema.ops[name].send(schema.ops[name].receive(globalItems[name], value).item)
  {
  }

  /** If the global `get`, the `read` or the `receive` fails while materialising, nothing changes. */
  lemma FailedMaterializeKeepsInheriting<T>(schema: Schema<T>, items: map<string, Option<T>>, name: string, value: seq<string>,
                                            globalSchema: Schema<T>, globalItems: map<string, T>)
    requires Populated(schema, items) && SettingDerive.Populated(globalSchema, globalItems)
    requires name in schema.ops && items[name].None?
    requires ChangeItem(schema, items, name, value, globalSchema, globalItems).outcome.Fail?
    ensures ChangeItem(schema, items, name, value, globalSchema, globalItems).items == items
    ensures GetItem(schema, items, name, globalSchema, globalItems) == SettingDerive.GetItem(globalSchema, globalItems, name)
  {
  }

  /** A name that is not a field: both `get` and `change` say "Item not found", and nothing changes. */
  lemma UnknownNameNotFound<T>(schema: Schema<T>, items: map<string, Option<T>>, name: string, value: seq<string>,
                               globalSchema: Schema<T>, globalItems: map<string, T>)
    requires Populated(schema, items) && SettingDerive.Populated(globalSchema, globalItems)
    requires name !in schema.ops
    ensures GetItem(schema, items, name, globalSchema, globalItems) == Err(ItemNotFound)
    ensures ChangeItem(schema, items, name, value, globalSchema, globalItems) == SettingDerive.Changed(items, Fail(ItemNotFound))
  {
  }

  /** A modpack's store of overrides. */
  class ModpackStore<T> {
    const schema: Schema<T>
    var items: map<string, Option<T>>

    ghost predicate Valid()
      reads this
    {
      schema.WellFormed() && Populated(schema, items)
    }

    constructor (schema: Schema<T>, items: map<string, Option<T>>)
      requires schema.WellFormed() && Populated(schema, items)
      ensures Valid() && this.schema == schema && this.items == items
    {
      this.schema := schema;
      this.items := items;
    }

    /** `change(&mut self, item_name, value, globle: &Settings)`: the global store is only read. */
    method Change(name: string, value: seq<string>, globle: SettingDerive.Store<T>) returns (outcome: Outcome<Error>)
      requires Valid() && globle.Valid()
      modifies this
      ensures Valid() && unchanged(globle)
      ensures SettingDerive.Changed(items, outcome)
              == ChangeItem(schema, old(items), name, value, globle.schema, globle.items)
    {
      if name !in schema.ops {
        return Fail(ItemNotFound);
      }
      match items[name] {
        case Some(v) =>
          var received := schema.ops[name].receive(v, value);
          items := items[name := Some(received.item)];
          outcome := received.outcome;
        case None =>
          var globalValue := SettingDerive.GetItem(globle.schema, globle.items, name);
          if globalValue.Err? {
            return Fail(globalValue.error);
          }
          var copy := schema.ops[name].read(Some(globalValue.value));
          if copy.Err? {
            return Fail(copy.error);
          }
          var received := schema.ops[name].receive(copy.value, value);
          if received.outcome.Fail? {
            return received.outcome;
          }
          items := items[name := Some(received.item)];
          outcome := Pass;
      }
    }
  }
}
