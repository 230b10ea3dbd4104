/**
 * The contract every setting item satisfies (`read`, `write`, `send`, `receive`),
 * and the field list a settings struct is generated from.
 */
module Items {
  import opened Wrappers
  import Json

  /**
   * The state an item is left in by `receive(&mut self, value)`, and what it returned.
   * A failing `receive` may already have changed the item in place.
   */
  datatype Received<T> = Received(item: T, outcome: Outcome<Error>)

  /** One item type's methods, as function values. */
  datatype ItemOps<!T> = ItemOps(
    read: Option<Json.Value> -> Result<T, Error>,   // `read(json: Option<Value>)`
    write: T -> Result<Json.Value, Error>,           // persisted form
    send: T -> Result<Json.Value, Error>,            // form handed to the front end
    receive: (T, seq<string>) -> Received<T>)        // apply a change request

  /**
   * The fields of a struct that derives `Setting` or `ModpackSetting`, in declaration
   * order, and the item methods of each field's type.
   */
  datatype Schema<!T> = Schema(fields: seq<string>, ops: map<string, ItemOps<T>>) {
    /** Every listed field has methods and every field with methods is listed. */
    predicate WellFormed() {
      && (forall i | 0 <= i < |fields| :: fields[i] in ops)
      && (forall n | n in ops :: n in fields)
    }
  }

  /**
   * `read_modpack`: an absent key means "inherit" (`None`); a present one is read
   * strictly with `read(Some(json))`.
   */
  function ReadModpack<T>(ops: ItemOps<T>, json: Option<Json.Value>): (r: Result<Option<T>, Error>)
    ensures json.None? ==> r == Ok(None)
    ensures json.Some? && ops.read(json).Ok? ==> r == Ok(Some(ops.read(json).value))
    ensures json.Some? && ops.read(json).Err? ==> r == Err(ops.read(json).error)
  {
    match json
    case None => Ok(None)
    case Some(_) =>
      match ops.read(json)
      case Ok(item) => Ok(Some(item))
      case Err(e) => Err(e)
  }

  /** The item `x` survives being sent and read back: `read(Some(send(x))) == x`. */
  ghost predicate Rereads<T>(ops: ItemOps<T>, x: T) {
    ops.send(x).Ok? && ops.read(Some(ops.send(x).value)) == Ok(x)
  }
}
