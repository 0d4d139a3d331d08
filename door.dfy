/** The door entity class: a marker component that needs no fields. */
module DoorClass {
  import opened Json
  import opened ParseFields

  /** The level-file type name that the indexer dispatches on. */
  const DOOR_ID: string := "Door"

  datatype Door = Door

  /** `Door::parse`: succeeds on every field bag, the empty one included. */
  function Parse(fields: FieldBag): (r: Parsed<Door>)
    ensures r == Ok(Door)
  {
    Ok(Door)
  }

  /** The result does not depend on the fields. */
  lemma ParseIgnoresFields(f: FieldBag, g: FieldBag)
    ensures Parse(f) == Parse(g)
  {
  }
}
