/**
 * The entity classifier: every map entity not yet marked as indexed is
 * dispatched on its exact type name to a parser, gets the parsed component
 * when the parser succeeds, and is marked as indexed whatever the outcome.
 */
module Indexer {
  import opened Engine
  import opened ParseFields
  import opened LevelMap
  import opened StartLocationClass
  import opened DoorClass

  /** The typed components the indexer can attach. */
  datatype Typed = StartLocationComponent(start: StartLocation) | DoorComponent(door: Door)

  /** Why an entity got the marker only. */
  datatype Reason = ParseFailed(error: ParseError) | UnknownType

  /** What indexing one entity does. */
  datatype Outcome =
    | Attach(component: Typed)   // the component, then the marker
    | MarkOnly(reason: Reason)   // the marker alone
    | Abort                      // the parser panicked

  /** The shared step of every dispatch arm: attach on success, mark only on failure. */
  function Insert<T>(parsed: Parsed<T>, wrap: T -> Typed): Outcome {
    match parsed
    case Ok(c) => Attach(wrap(c))
    case Err(e) => MarkOnly(ParseFailed(e))
    case Panic => Abort
  }

  /**
   * The dispatch of `index_entities` for one entity: "Start_Location" and
   * "Door" have parsers, every other name (compared exactly, case included)
   * gets the marker only.
   */
  function Classify(e: MapEntity): (r: Outcome)
    ensures r.Attach? && r.component.StartLocationComponent? <==>
              e.name == START_LOCATION_ID && StartLocationClass.Parse(e.fields).Ok?
    ensures r.Attach? && r.component.StartLocationComponent? ==> r.component.start == StartLocationClass.Parse(e.fields).value
    ensures r == Attach(DoorComponent(Door)) <==> e.name == DOOR_ID
    ensures r.Abort? <==> e.name == START_LOCATION_ID && StartLocationClass.Parse(e.fields).Panic?
    ensures r.MarkOnly? && r.reason.ParseFailed? <==> e.name == START_LOCATION_ID && StartLocationClass.Parse(e.fields).Err?
    ensures r == MarkOnly(UnknownType) <==> e.name != START_LOCATION_ID && e.name != DOOR_ID
  {
    if e.name == START_LOCATION_ID then Insert(StartLocationClass.Parse(e.fields), (s: StartLocation) => StartLocationComponent(s))
    else if e.name == DOOR_ID then Insert(DoorClass.Parse(e.fields), (d: Door) => DoorComponent(d))
    else MarkOnly(UnknownType)
  }

  /** Names of the entity classes the indexer does not dispatch, such as gold and patrol paths, get the marker only. */
  lemma UndispatchedNames(fields: Json.FieldBag)
    ensures Classify(MapEntity("Gold", fields)) == MarkOnly(UnknownType)
    ensures Classify(MapEntity("Patrol_Path", fields)) == MarkOnly(UnknownType)
    ensures Classify(MapEntity("door", fields)) == MarkOnly(UnknownType)
    ensures Classify(MapEntity("start_location", fields)) == MarkOnly(UnknownType)
  {
  }

  /** The entity tables the indexer touches. */
  datatype Store = Store(
    mapEntities: map<Entity, MapEntity>,
    indexed: set<Entity>,
    startLocations: map<Entity, StartLocation>,
    doors: set<Entity>)

  /** The entities one pass visits: those with a map entity and no marker. */
  function Pending(w: Store): set<Entity> {
    w.mapEntities.Keys - w.indexed
  }

  /** The outcome of one pass for each entity it visits. */
  function Outcomes(w: Store): (o: map<Entity, Outcome>)
    ensures o.Keys == Pending(w)
  {
    map e | e in Pending(w) :: Classify(w.mapEntities[e])
  }

  /** Whether one pass panics: some pending entity's parser panics. */
  predicate Aborts(w: Store) {
    exists e :: e in Outcomes(w) && Outcomes(w)[e].Abort?
  }

  /** Start locations attached by a table of outcomes, by entity. */
  function NewStartLocations(o: map<Entity, Outcome>): map<Entity, StartLocation> {
    map e | e in o && o[e].Attach? && o[e].component.StartLocationComponent? :: o[e].component.start
  }

  /** Doors attached by a table of outcomes. */
  function NewDoors(o: map<Entity, Outcome>): set<Entity> {
    set e | e in o && o[e].Attach? && o[e].component.DoorComponent?
  }

  /** The tables after the visited entities' outcomes are committed. */
  function Commit(w: Store, o: map<Entity, Outcome>): Store {
    Store(w.mapEntities, w.indexed + o.Keys, w.startLocations + NewStartLocations(o), w.doors + NewDoors(o))
  }

  /** The tables after one pass that does not panic. */
  function IndexPass(w: Store): Store {
    Commit(w, Outcomes(w))
  }

  /** After one pass every map entity carries the marker, whatever its parse outcome, and nothing is unmarked. */
  lemma PassMarksAll(w: Store)
    ensures IndexPass(w).indexed == w.indexed + w.mapEntities.Keys
    ensures Pending(IndexPass(w)) == {}
  {
  }

  /** A second pass visits nothing, cannot panic and changes nothing. */
  lemma PassIdempotent(w: Store)
    ensures !Aborts(IndexPass(w))
    ensures IndexPass(IndexPass(w)) == IndexPass(w)
  {
    var w' := IndexPass(w);
    PassMarksAll(w);
    var o' := Outcomes(w');
    assert o' == map[];
    CommitNothing(w');
  }

  /** Committing no outcomes changes nothing. */
  lemma CommitNothing(w: Store)
    ensures Commit(w, map[]) == w
  {
    assert NewStartLocations(map[]) == map[];
    assert NewDoors(map[]) == {};
    assert w.startLocations + map[] == w.startLocations;
  }

  /**
   * What one pass does to a pending entity depends only on that entity: a
   * start location on a successful "Start_Location" parse, a door for
   * "Door", and no new component on a failed parse or an unknown name.
   */
  lemma PassPerEntity(w: Store, e: Entity)
    requires e in Pending(w)
    ensures e in IndexPass(w).indexed
    ensures Classify(w.mapEntities[e]).Attach? && Classify(w.mapEntities[e]).component.StartLocationComponent?
            ==> e in IndexPass(w).startLocations && IndexPass(w).startLocations[e] == Classify(w.mapEntities[e]).component.start
    ensures Classify(w.mapEntities[e]) == Attach(DoorComponent(Door)) ==> e in IndexPass(w).doors
    ensures Classify(w.mapEntities[e]).MarkOnly? ==>
              && (e in IndexPass(w).startLocations <==> e in w.startLocations)
              && (e in w.startLocations ==> IndexPass(w).startLocations[e] == w.startLocations[e])
              && (e in IndexPass(w).doors <==> e in w.doors)
  {
  }

  /**
   * The tables of a pass that has committed every outcome except those of
   * `todo`, none of them a panic.
   */
  ghost predicate Partial(w: Store, o: map<Entity, Outcome>, todo: set<Entity>, marked: set<Entity>, starts: map<Entity, StartLocation>, newDoors: set<Entity>) {
    && todo <= o.Keys
    && (forall e :: e in o && e !in todo ==> !o[e].Abort?)
    && marked == w.indexed + (o.Keys - todo)
    && PartialStarts(w, o, todo, starts)
    && newDoors == w.doors + (NewDoors(o) - todo)
  }

  ghost predicate PartialStarts(w: Store, o: map<Entity, Outcome>, todo: set<Entity>, starts: map<Entity, StartLocation>) {
    && starts.Keys == w.startLocations.Keys + (NewStartLocations(o).Keys - todo)
    && (forall e :: e in starts ==>
          starts[e] == if e in NewStartLocations(o) && e !in todo then NewStartLocations(o)[e] else w.startLocations[e])
  }

  /** The start locations after the pass has handled one more entity. */
  function StepStarts(starts: map<Entity, StartLocation>, e: Entity, o: Outcome): map<Entity, StartLocation> {
    if o.Attach? && o.component.StartLocationComponent? then starts[e := o.component.start] else starts
  }

  /** The doors after the pass has handled one more entity. */
  function StepDoors(doors: set<Entity>, e: Entity, o: Outcome): set<Entity> {
    if o.Attach? && o.component.DoorComponent? then doors + {e} else doors
  }

  lemma PartialStart(w: Store, o: map<Entity, Outcome>)
    ensures Partial(w, o, o.Keys, w.indexed, w.startLocations, w.doors)
  {
  }

  lemma PartialStep(w: Store, o: map<Entity, Outcome>, todo: set<Entity>, marked: set<Entity>, starts: map<Entity, StartLocation>,
                    newDoors: set<Entity>, e: Entity)
    requires Partial(w, o, todo, marked, starts, newDoors)
    requires e in todo && !o[e].Abort?
    ensures Partial(w, o, todo - {e}, marked + {e}, StepStarts(starts, e, o[e]), StepDoors(newDoors, e, o[e]))
  {
    PartialStartsStep(w, o, todo, starts, e);
  }

  lemma PartialStartsStep(w: Store, o: map<Entity, Outcome>, todo: set<Entity>, starts: map<Entity, StartLocation>, e: Entity)
    requires PartialStarts(w, o, todo, starts)
    requires e in todo && e in o
    ensures PartialStarts(w, o, todo - {e}, StepStarts(starts, e, o[e]))
  {
    var added := NewStartLocations(o);
    var starts' := StepStarts(starts, e, o[e]);
    if e in added {
      assert starts' == starts[e := added[e]];
    } else {
      assert starts' == starts;
    }
  }

  /** A pass that has handled every outcome has produced the committed tables. */
  lemma PartialDone(w: Store, o: map<Entity, Outcome>, marked: set<Entity>, starts: map<Entity, StartLocation>, newDoors: set<Entity>)
    requires Partial(w, o, {}, marked, starts, newDoors)
    ensures Store(w.mapEntities, marked, starts, newDoors) == Commit(w, o)
  {
    var added := NewStartLocations(o);
    assert starts.Keys == (w.startLocations + added).Keys;
    forall e | e in starts
      ensures starts[e] == (w.startLocations + added)[e]
    {
    }
    assert starts == w.startLocations + added;
  }

  /** Entities already marked keep every component they had. */
  lemma PassLeavesIndexed(w: Store, e: Entity)
    requires e in w.indexed
    ensures e in IndexPass(w).startLocations <==> e in w.startLocations
    ensures e in w.startLocations ==> IndexPass(w).startLocations[e] == w.startLocations[e]
    ensures e in IndexPass(w).doors <==> e in w.doors
  {
  }

  /**
   * Typed components sit only on marked entities, and no entity has both.
   * The indexer is the only producer of these components.
   */
  ghost predicate Valid(w: Store) {
    && w.startLocations.Keys <= w.indexed
    && w.doors <= w.indexed
    && w.startLocations.Keys !! w.doors
  }

  /** A pass keeps the invariant: every entity ends up with at most one typed component. */
  lemma PassPreservesValid(w: Store)
    requires Valid(w)
    ensures Valid(IndexPass(w))
  {
    var w' := IndexPass(w);
    var o := Outcomes(w);
    forall e | e in w'.doors
      ensures e !in w'.startLocations
    {
      if e in NewDoors(o) {
        assert e !in w.startLocations && e !in NewStartLocations(o);
      }
    }
  }

  /** The part of the entity store the indexer's query reads and its commands write. */
  class Entities {
    var mapEntities: map<Entity, MapEntity>
    var indexed: set<Entity>
    var startLocations: map<Entity, StartLocation>
    var doors: set<Entity>

    function View(): Store
      reads this
    {
      Store(mapEntities, indexed, startLocations, doors)
    }

    constructor (mapEntities: map<Entity, MapEntity>)
      ensures View() == Store(mapEntities, {}, map[], {})
    {
      this.mapEntities := mapEntities;
      indexed := {};
      startLocations := map[];
      doors := {};
    }

    /**
     * `index_entities`: classify every unmarked map entity and mark it. The
     * pass commits its commands only when no parser panics.
     */
    method IndexEntities() returns (aborted: bool)
      modifies this`indexed, this`startLocations, this`doors
      ensures aborted <==> Aborts(old(View()))
      ensures !aborted ==> View() == IndexPass(old(View()))
      ensures aborted ==> View() == old(View())
    {
      ghost var w := View();
      ghost var o := Outcomes(w);
      var todo := mapEntities.Keys - indexed;
      var marked, starts, newDoors := indexed, startLocations, doors;
      PartialStart(w, o);
      while todo != {}
        invariant View() == w
        invariant Partial(w, o, todo, marked, starts, newDoors)
        decreases todo
      {
        var e :| e in todo;
        var outcome := Classify(mapEntities[e]);
        assert outcome == o[e];
        if outcome.Abort? {
          return true;
        }
        PartialStep(w, o, todo, marked, starts, newDoors, e);
        if outcome.Attach? && outcome.component.StartLocationComponent? {
          starts := starts[e := outcome.component.start];
        } else if outcome.Attach? {
          newDoors := newDoors + {e};
        }
        marked := marked + {e};
        todo := todo - {e};
      }
      PartialDone(w, o, marked, starts, newDoors);
      indexed, startLocations, doors := marked, starts, newDoors;
      aborted := false;
    }
  }
}
