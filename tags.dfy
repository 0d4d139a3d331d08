/** Tile world types and their reading from a tileset's custom data string. */
module Tags {
  import opened Wrappers

  /** What a map tile is to the world. `Door` and `Nothing` are placeholders. */
  datatype WorldType = Air | Wall | Door | Nothing

  /** `world_type_from_str`: exact, case-sensitive match of the two known names. */
  function WorldTypeFromStr(s: string): (r: Option<WorldType>)
    ensures r == Some(Wall) <==> s == "Wall"
    ensures r == Some(Air) <==> s == "Floor"
    ensures r == None <==> s != "Wall" && s != "Floor"
  {
    if s == "Wall" then Some(Wall)
    else if s == "Floor" then Some(Air)
    else None
  }

  /** The name that custom data uses for a world type, for the two that have one. */
  function WorldTypeName(w: WorldType): Option<string> {
    match w
    case Wall => Some("Wall")
    case Air => Some("Floor")
    case _ => None
  }

  /** Reading a world type's name gives that world type back. */
  lemma NameRoundTrip(w: WorldType)
    requires WorldTypeName(w).Some?
    ensures WorldTypeFromStr(WorldTypeName(w).value) == Some(w)
  {
  }

  /** Every string that is read is the name of what it is read as. */
  lemma ReadIsName(s: string)
    requires WorldTypeFromStr(s).Some?
    ensures WorldTypeName(WorldTypeFromStr(s).value) == Some(s)
  {
  }

  /** The placeholders are never produced. */
  lemma NeverDoorOrNothing(s: string)
    ensures WorldTypeFromStr(s) != Some(Door)
    ensures WorldTypeFromStr(s) != Some(Nothing)
  {
  }
}
