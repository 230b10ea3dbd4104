/**
 * The methods `#[derive(Setting)]` generates for a struct whose every field is an item:
 * `read`, `create`, `save`, `get` and `change`, dispatched by field name.
 */
module SettingDerive {
  import opened Wrappers
  import Json
  import opened Items

  /** Every field of the schema holds an item, and nothing else is held. */
  predicate Populated<T>(schema: Schema<T>, items: map<string, T>) {
    items.Keys == schema.ops.Keys
  }

  predicate Listed<T>(schema: Schema<T>, fields: seq<string>) {
    forall i | 0 <= i < |fields| :: fields[i] in schema.ops
  }

  /** `let f = T::read(json.get("f").cloned())?;` for each field in order. */
  function ReadFields<T>(schema: Schema<T>, fields: seq<string>, json: Json.Value): (r: Result<map<string, T>, Error>)
    requires Listed(schema, fields)
    ensures r.Ok? ==> r.value.Keys == set i | 0 <= i < |fields| :: fields[i]
    ensures r.Ok? ==> forall n | n in r.value :: schema.ops[n].read(Json.Get(json, n)) == Ok(r.value[n])
    ensures r.Err? <==> exists i | 0 <= i < |fields| :: schema.ops[fields[i]].read(Json.Get(json, fields[i])).Err?
    ensures r.Err? ==> exists i | 0 <= i < |fields| ::
              && schema.ops[fields[i]].read(Json.Get(json, fields[i])) == Err(r.error)
              && forall j | 0 <= j < i :: schema.ops[fields[j]].read(Json.Get(json, fields[j])).Ok?
    decreases |fields|
  {
    if fields == [] then Ok(map[])
    else
      var name := fields[0];
      match schema.ops[name].read(Json.Get(json, name))
      case Err(e) => Err(e)
      case Ok(item) =>
        match ReadFields(schema, fields[1..], json)
        case Err(e) =>
          assert forall i | 0 <= i < |fields| - 1 :: fields[1..][i] == fields[i + 1];
          Err(e)
        case Ok(rest) =>
          assert (set i | 0 <= i < |fields| :: fields[i]) == {name} + set i | 0 <= i < |fields| - 1 :: fields[1..][i];
          Ok(rest[name := item])
  }

  /** `read(json)`: every field from its key of the object, a missing key giving `read(None)`. */
  function ReadItems<T>(schema: Schema<T>, json: Json.Value): (r: Result<map<string, T>, Error>)
    requires schema.WellFormed()
    ensures r.Ok? ==> Populated(schema, r.value)
    ensures r.Ok? <==> forall n | n in schema.ops :: schema.ops[n].read(Json.Get(json, n)).Ok?
    ensures r.Ok? ==> forall n | n in schema.ops :: schema.ops[n].read(Json.Get(json, n)) == Ok(r.value[n])
  {
    var r := ReadFields(schema, schema.fields, json);
    assert r.Ok? ==> r.value.Keys == schema.ops.Keys by {
      if r.Ok? {
        forall n | n in schema.ops ensures n in r.value {
          var i :| 0 <= i < |schema.fields| && schema.fields[i] == n;
        }
      }
    }
    r
  }

  /** `f: T::read(None)?` for each field in order. */
  function CreateFields<T>(schema: Schema<T>, fields: seq<string>): (r: Result<map<string, T>, Error>)
    requires Listed(schema, fields)
    ensures r.Ok? ==> r.value.Keys == set i | 0 <= i < |fields| :: fields[i]
    decreases |fields|
  {
    if fields == [] then Ok(map[])
    else
      match schema.ops[fields[0]].read(None)
      case Err(e) => Err(e)
      case Ok(item) =>
        match CreateFields(schema, fields[1..])
        case Err(e) => Err(e)
        case Ok(rest) =>
          assert (set i | 0 <= i < |fields| :: fields[i]) == {fields[0]} + set i | 0 <= i < |fields| - 1 :: fields[1..][i];
          Ok(rest[fields[0] := item])
  }

  /** `create()`: first-run initialisation of every field. */
  function CreateItems<T>(schema: Schema<T>): (r: Result<map<string, T>, Error>)
    requires schema.WellFormed()
    ensures r.Ok? ==> Populated(schema, r.value)
  {
    var r := CreateFields(schema, schema.fields);
    assert r.Ok? ==> r.value.Keys == schema.ops.Keys by {
      if r.Ok? {
        forall n | n in schema.ops ensures n in r.value {
          var i :| 0 <= i < |schema.fields| && schema.fields[i] == n;
        }
      }
    }
    r
  }

  lemma {:induction false} CreateFieldsIsReadOfEmpty<T>(schema: Schema<T>, fields: seq<string>)
    requires Listed(schema, fields)
    ensures CreateFields(schema, fields) == ReadFields(schema, fields, Json.Object(map[]))
    decreases |fields|
  {
    if fields != [] {
      assert Json.Get(Json.Object(map[]), fields[0]) == None;
      CreateFieldsIsReadOfEmpty(schema, fields[1..]);
    }
  }

  /** `create()` is reading an object in which every key is absent. */
  lemma CreateIsReadOfEmpty<T>(schema: Schema<T>)
    requires schema.WellFormed()
    ensures CreateItems(schema) == ReadItems(schema, Json.Object(map[]))
  {
    CreateFieldsIsReadOfEmpty(schema, schema.fields);
  }

  /** `json!({ "f": self.f.write()?, ... })`: one key per field, in order of evaluation. */
  function SaveFields<T>(schema: Schema<T>, items: map<string, T>, fields: seq<string>): (r: Result<map<string, Json.Value>, Error>)
    requires Listed(schema, fields) && Populated(schema, items)
    ensures r.Ok? ==> r.value.Keys == set i | 0 <= i < |fields| :: fields[i]
    ensures r.Ok? ==> forall n | n in r.value :: schema.ops[n].write(items[n]) == Ok(r.value[n])
    ensures r.Err? <==> exists i | 0 <= i < |fields| :: schema.ops[fields[i]].write(items[fields[i]]).Err?
    decreases |fields|
  {
    if fields == [] then Ok(map[])
    else
      var name := fields[0];
      match schema.ops[name].write(items[name])
      case Err(e) => Err(e)
      case Ok(j) =>
        match SaveFields(schema, items, fields[1..])
        case Err(e) =>
          assert forall i | 0 <= i < |fields| - 1 :: fields[1..][i] == fields[i + 1];
          Err(e)
        case Ok(rest) =>
          assert (set i | 0 <= i < |fields| :: fields[i]) == {name} + set i | 0 <= i < |fields| - 1 :: fields[1..][i];
          Ok(rest[name := j])
  }

  /** `save()`: an object with exactly one key per field, valued the field's `write()`. */
  function SaveItems<T>(schema: Schema<T>, items: map<string, T>): (r: Result<Json.Value, Error>)
    requires schema.WellFormed() && Populated(schema, items)
    ensures r.Ok? <==> forall n | n in schema.ops :: schema.ops[n].write(items[n]).Ok?
    ensures r.Ok? ==> r.value.Object? && r.value.fields.Keys == schema.ops.Keys
    ensures r.Ok? ==> forall n | n in schema.ops :: Ok(r.value.fields[n]) == schema.ops[n].write(items[n])
  {
    var saved := SaveFields(schema, items, schema.fields);
    if saved.Err? then
      assert exists i | 0 <= i < |schema.fields| :: schema.ops[schema.fields[i]].write(items[schema.fields[i]]).Err?;
      Err(saved.error)
    else
      assert saved.value.Keys == schema.ops.Keys by {
        forall n | n in schema.ops ensures n in saved.value {
          var i :| 0 <= i < |schema.fields| && schema.fields[i] == n;
        }
      }
      Ok(Json.Object(saved.value))
  }

  /** Every item's `write` succeeds and reads back as itself through `read(Some(..))`. */
  ghost predicate WritesReadBack<T>(schema: Schema<T>, items: map<string, T>)
    requires Populated(schema, items)
  {
    forall n | n in schema.ops ::
      schema.ops[n].write(items[n]).Ok? && schema.ops[n].read(Some(schema.ops[n].write(items[n]).value)) == Ok(items[n])
  }

  /** Reading back what `save` produced gives the same items, when every item reads back its own `write`. */
  lemma SaveReadRoundTrip<T>(schema: Schema<T>, items: map<string, T>)
    requires schema.WellFormed() && Populated(schema, items) && WritesReadBack(schema, items)
    ensures SaveItems(schema, items).Ok?
    ensures ReadItems(schema, SaveItems(schema, items).value) == Ok(items)
  {
    var saved := SaveItems(schema, items).value;
    forall n | n in schema.ops
      ensures schema.ops[n].read(Json.Get(saved, n)) == Ok(items[n])
    {
      assert Json.Get(saved, n) == Some(saved.fields[n]);
    }
    var r := ReadItems(schema, saved);
    assert r.value == items;
  }

  /** `get(name)`: the named field's `send()`; any other name is "Item not found". */
  function GetItem<T>(schema: Schema<T>, items: map<string, T>, name: string): (r: Result<Json.Value, Error>)
    requires Populated(schema, items)
    ensures name in schema.ops ==> r == schema.ops[name].send(items[name])
    ensures name !in schema.ops ==> r == Err(ItemNotFound)
  {
    if name in schema.ops then schema.ops[name].send(items[name]) else Err(ItemNotFound)
  }

  /** The items after a `change`, and what `change` returned. */
  datatype Changed<S> = Changed(items: S, outcome: Outcome<Error>)

  /**
   * `change(name, value)`: `receive` on the named field in place; the `?` passes its
   * error on with the field as `receive` left it.  Any other name is "Item not found".
   */
  function ChangeItem<T>(schema: Schema<T>, items: map<string, T>, name: string, value: seq<string>): (c: Changed<map<string, T>>)
    requires Populated(schema, items)
    ensures Populated(schema, c.items)
    ensures name !in schema.ops ==> c == Changed(items, Fail(ItemNotFound))
    ensures name in schema.ops ==>
              var received := schema.ops[name].receive(items[name], value);
              c.items[name] == received.item && c.outcome == received.outcome
    ensures forall n | n in items && n != name :: c.items[n] == items[n]
  {
    if name in schema.ops then
      var received := schema.ops[name].receive(items[name], value);
      Changed(items[name := received.item], received.outcome)
    else Changed(items, Fail(ItemNotFound))
  }

  /** A changed field answers `get` from its new state; every other name answers as before. */
  lemma GetAfterChange<T>(schema: Schema<T>, items: map<string, T>, name: string, value: seq<string>, other: string)
    requires Populated(schema, items) && name in schema.ops
    ensures GetItem(schema, ChangeItem(schema, items, name, value).items, name)
            == schema.ops[name].send(schema.ops[name].receive(items[name], value).item)
    ensures other != name ==>
              GetItem(schema, ChangeItem(schema, items, name, value).items, other) == GetItem(schema, items, other)
  {
  }

  /** The global store: one item per field, changed in place. */
  class Store<T> {
    const schema: Schema<T>
    var items: map<string, T>

    ghost predicate Valid()
      reads this
    {
      schema.WellFormed() && Populated(schema, items)
    }

    constructor (schema: Schema<T>, items: map<string, T>)
      requires schema.WellFormed() && Populated(schema, items)
      ensures Valid() && this.schema == schema && this.items == items
    {
      this.schema := schema;
      this.items := items;
    }

    /** `change(&mut self, item_name, value)`. */
    method Change(name: string, value: seq<string>) returns (outcome: Outcome<Error>)
      requires Valid()
      modifies this
      ensures Valid()
      ensures Changed(items, outcome) == ChangeItem(schema, old(items), name, value)
    {
      if name in schema.ops {
        var received := schema.ops[name].receive(items[name], value);
        items := items[name := received.item];
        outcome := received.outcome;
      } else {
        outcome := Fail(ItemNotFound);
      }
    }
  }
}
