/** The patrol-path entity class. The component carries no waypoints. */
module PatrolPathClass {
  import opened Json
  import opened ParseFields

  /** The level-file type name of a patrol path. */
  const PATROL_PATH_ID: string := "Patrol_Path"

  /** A patrol path; no field of the level entity is read into it. */
  datatype PatrolPath = PatrolPath

  /** `PatrolPath::parse`: succeeds on every field bag, the empty one included. */
  function Parse(fields: FieldBag): (r: Parsed<PatrolPath>)
    ensures r == Ok(PatrolPath)
  {
    Ok(PatrolPath)
  }

  /** The result does not depend on the fields. */
  lemma ParseIgnoresFields(f: FieldBag, g: FieldBag)
    ensures Parse(f) == Parse(g)
  {
  }
}
