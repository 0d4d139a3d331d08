/**
 * The spawn-point entity class: its parser, and the spawn resolver that turns a
 * spawn point into at most one new player or enemy per pass until its quota
 * is reached.
 */
module StartLocationClass {
  import opened Wrappers
  import opened Numeric
  import opened Engine
  import opened Json
  import opened ParseFields

  /** The kinds of character a spawn point can produce. */
  datatype StartEntity = Player | Enemy

  /** The level-file type name of a spawn point. */
  const START_LOCATION_ID: string := "Start_Location"

  const CHARACTER_FIELD: string := "Character"
  const COUNT_FIELD: string := "Count"

  /** A spawn point: what it spawns, how many (an i64), and how many so far. */
  datatype StartLocation = StartLocation(character: StartEntity, count: int, spawned: int)

  /** `StartEntity::from_string`: exact, case-sensitive match of the two kind names. */
  function FromString(s: string): (r: Parsed<StartEntity>)
    ensures r == Ok(Player) <==> s == "Player"
    ensures r == Ok(Enemy) <==> s == "Enemy"
    ensures !r.Ok? ==> r == Err(NoStartEntityBinding(s))
  {
    if s == "Player" then Ok(Player)
    else if s == "Enemy" then Ok(Enemy)
    else Err(NoStartEntityBinding(s))
  }

  /** The name a level file uses for a kind. */
  function Name(k: StartEntity): string {
    match k
    case Player => "Player"
    case Enemy => "Enemy"
  }

  /** Reading a kind's name gives the kind back, and only its own name does. */
  lemma FromStringName(k: StartEntity, s: string)
    ensures FromString(Name(k)) == Ok(k)
    ensures FromString(s) == Ok(k) ==> s == Name(k)
  {
  }

  /** The string held by field `key`, when the field is present, non-null and a string. */
  function StringField(fields: FieldBag, key: string): Option<string> {
    if key in fields && fields[key].Some? && fields[key].value.Str? then Some(fields[key].value.s) else None
  }

  /** The number held by field `key`, when the field is present, non-null and a number. */
  function NumberField(fields: FieldBag, key: string): Option<Number> {
    if key in fields && fields[key].Some? && fields[key].value.Num? then Some(fields[key].value.n) else None
  }

  /**
   * `StartLocation::parse`. `Character` is read first: absent, null or not a
   * string is `InvalidParse`, an unknown name is the binding error. Then
   * `Count`: absent, null or not a number is `InvalidParse`, a number that is
   * not an i64 panics. A fresh spawn point has spawned nothing.
   */
  function Parse(fields: FieldBag): (r: Parsed<StartLocation>)
    ensures StringField(fields, CHARACTER_FIELD).None? ==> r == Err(INVALID_PARSE)
    ensures StringField(fields, CHARACTER_FIELD).Some? && FromString(StringField(fields, CHARACTER_FIELD).value).Err?
            ==> r == Err(NoStartEntityBinding(StringField(fields, CHARACTER_FIELD).value))
    ensures (&& StringField(fields, CHARACTER_FIELD).Some?
             && FromString(StringField(fields, CHARACTER_FIELD).value).Ok?
             && NumberField(fields, COUNT_FIELD).None?)
            ==> r == Err(INVALID_PARSE)
    ensures r.Panic? <==> StringField(fields, CHARACTER_FIELD).Some? && FromString(StringField(fields, CHARACTER_FIELD).value).Ok?
                          && NumberField(fields, COUNT_FIELD).Some? && AsI64(NumberField(fields, COUNT_FIELD).value).None?
    ensures (&& StringField(fields, CHARACTER_FIELD).Some?
             && FromString(StringField(fields, CHARACTER_FIELD).value).Ok?
             && NumberField(fields, COUNT_FIELD).Some?
             && AsI64(NumberField(fields, COUNT_FIELD).value).Some?)
            ==> r == Ok(StartLocation(FromString(StringField(fields, CHARACTER_FIELD).value).value,
                                      AsI64(NumberField(fields, COUNT_FIELD).value).value, 0))
    ensures r.Ok? ==> && r.value.spawned == 0
                      && InI64(r.value.count)
                      && fields[CHARACTER_FIELD] == Some(Str(Name(r.value.character)))
                      && fields[COUNT_FIELD] == Some(Num(Int(r.value.count)))
  {
    if CHARACTER_FIELD !in fields then Err(INVALID_PARSE)
    else
      match fields[CHARACTER_FIELD]
      case Some(Str(s)) =>
        (match FromString(s)
         case Ok(character) =>
           if COUNT_FIELD !in fields then Err(INVALID_PARSE)
           else
             (match fields[COUNT_FIELD]
              case Some(Num(n)) =>
                (match AsI64(n)
                 case Some(count) => Ok(StartLocation(character, count, 0))
                 case None => Panic)
              case _ => Err(INVALID_PARSE))
         case Err(e) => Err(e)
         case Panic => Panic)
      case _ => Err(INVALID_PARSE)
  }

  /** The field bag a level file holds for a spawn point. */
  function Fields(s: StartLocation): FieldBag {
    map[CHARACTER_FIELD := Some(Str(Name(s.character))), COUNT_FIELD := Some(Num(Int(s.count)))]
  }

  /** Writing a spawn point out and parsing it back gives it back, reset to nothing spawned. */
  lemma ParseFieldsRoundTrip(s: StartLocation)
    requires InI64(s.count)
    ensures Parse(Fields(s)) == Ok(s.(spawned := 0))
  {
    FromStringName(s.character, Name(s.character));
  }

  // ---------------------------------------------------------------------
  // The spawn resolver

  /** One pass of the resolver over one spawn point. */
  function Step(s: StartLocation): (r: StartLocation)
    ensures r.character == s.character && r.count == s.count
    ensures s.spawned <= r.spawned <= s.spawned + 1
    ensures r.spawned > s.spawned <==> s.spawned < s.count
    ensures s.spawned <= s.count ==> r.spawned <= s.count
  {
    if s.spawned < s.count then s.(spawned := s.spawned + 1) else s
  }

  /** The spawn point after `n` passes. */
  function Run(s: StartLocation, n: nat): StartLocation {
    if n == 0 then s else Step(Run(s, n - 1))
  }

  /** How many characters `n` passes spawn from `s`. */
  function SpawnsOver(s: StartLocation, n: nat): nat {
    if n == 0 then 0
    else SpawnsOver(s, n - 1) + (if Run(s, n - 1).spawned < s.count then 1 else 0)
  }

  function Min(a: int, b: int): int {
    if a <= b then a else b
  }

  function Max(a: int, b: int): int {
    if a <= b then b else a
  }

  /**
   * After `n` passes the counter has advanced one per pass until it reached
   * `count`, and exactly one character was spawned per advance; the kind and
   * the quota never change.
   */
  lemma {:induction false} RunCount(s: StartLocation, n: nat)
    ensures Run(s, n).character == s.character && Run(s, n).count == s.count
    ensures Run(s, n).spawned == if s.spawned >= s.count then s.spawned else Min(s.spawned + n, s.count)
    ensures SpawnsOver(s, n) == Run(s, n).spawned - s.spawned
  {
    if n > 0 {
      RunCount(s, n - 1);
    }
  }

  /**
   * A freshly parsed spawn point has spawned `min(n, max(count, 0))` after
   * `n` passes: a quota of zero or less spawns nothing.
   */
  lemma FreshRun(s: StartLocation, n: nat)
    requires s.spawned == 0
    ensures Run(s, n).spawned == Min(n, Max(s.count, 0))
    ensures SpawnsOver(s, n) == Min(n, Max(s.count, 0))
  {
    RunCount(s, n);
  }

  /** The counter never decreases, never passes the quota it started under, and never leaves the i64 range. */
  lemma RunBounded(s: StartLocation, n: nat, m: nat)
    requires InI64(s.count) && InI64(s.spawned)
    requires m <= n
    ensures Run(s, m).spawned <= Run(s, n).spawned <= Max(s.count, s.spawned)
    ensures InI64(Run(s, n).spawned)
  {
    RunCount(s, n);
    RunCount(s, m);
  }

  /** A spawn command: spawn a character of `kind` at `at`, issued on behalf of spawn point `source`. */
  datatype SpawnCommand = SpawnCommand(source: Entity, kind: StartEntity, at: Vec3)

  /** Every spawn point that has a position, after one pass. */
  function StepAll(starts: map<Entity, StartLocation>, transforms: map<Entity, Vec3>): map<Entity, StartLocation> {
    map e | e in starts :: if e in transforms then Step(starts[e]) else starts[e]
  }

  /** The spawn commands one pass issues: one per positioned spawn point under its quota. */
  function SpawnsOf(starts: map<Entity, StartLocation>, transforms: map<Entity, Vec3>): set<SpawnCommand> {
    set e | e in starts && e in transforms && starts[e].spawned < starts[e].count
      :: SpawnCommand(e, starts[e].character, transforms[e])
  }

  /**
   * One pass spawns at most one character per spawn point, of the point's
   * kind at the point's position, exactly when the point is under quota; a
   * point at or over quota is left as it was.
   */
  lemma SpawnsOfPerPoint(starts: map<Entity, StartLocation>, transforms: map<Entity, Vec3>, e: Entity)
    requires e in starts && e in transforms
    ensures (exists c :: c in SpawnsOf(starts, transforms) && c.source == e)
            <==> starts[e].spawned < starts[e].count
    ensures forall c :: (c in SpawnsOf(starts, transforms) && c.source == e)
              ==> c == SpawnCommand(e, starts[e].character, transforms[e])
    ensures StepAll(starts, transforms)[e] == Run(starts[e], 1)
  {
    if starts[e].spawned < starts[e].count {
      assert SpawnCommand(e, starts[e].character, transforms[e]) in SpawnsOf(starts, transforms);
    }
  }

  /** The spawn points as the resolver's query sees them: each with its position. */
  class SpawnPoints {
    var startLocations: map<Entity, StartLocation>
    var transforms: map<Entity, Vec3>

    constructor (startLocations: map<Entity, StartLocation>, transforms: map<Entity, Vec3>)
      ensures this.startLocations == startLocations && this.transforms == transforms
    {
      this.startLocations := startLocations;
      this.transforms := transforms;
    }

    /**
     * `spawn_from_spawn_location`: every spawn point with a position that is
     * under quota spawns one character and counts it.
     */
    method SpawnFromSpawnLocation() returns (spawns: set<SpawnCommand>)
      modifies this`startLocations
      ensures startLocations == StepAll(old(startLocations), transforms)
      ensures spawns == SpawnsOf(old(startLocations), transforms)
    {
      var todo := startLocations.Keys * transforms.Keys;
      ghost var query := todo;
      spawns := {};
      while todo != {}
        invariant todo <= query == old(startLocations).Keys * transforms.Keys
        invariant startLocations.Keys == old(startLocations).Keys
        invariant forall e :: e in startLocations ==>
          startLocations[e] == if e in query && e !in todo then Step(old(startLocations)[e]) else old(startLocations)[e]
        invariant spawns == set e | e in query && e !in todo && old(startLocations)[e].spawned < old(startLocations)[e].count
          :: SpawnCommand(e, old(startLocations)[e].character, transforms[e])
        decreases todo
      {
        var e :| e in todo;
        var start := startLocations[e];
        if start.spawned < start.count {
          spawns := spawns + {SpawnCommand(e, start.character, transforms[e])};
          startLocations := startLocations[e := start.(spawned := start.spawned + 1)];
        }
        todo := todo - {e};
      }
    }
  }
}
