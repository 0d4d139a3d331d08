/**
 * Enemy AI: the initial enemy spawned at a start location, the random
 * Idle/Patrol state machine, and the patrol direction (`move_mod`) that
 * flips when the enemy leaves a 200-unit band below its start.
 */
module EnemyClass {
  import opened Engine

  datatype EnemyState = Idle | Patrol | Attack

  /** The enemy component: its state, where it was spawned and its vertical patrol direction. */
  datatype Enemy = Enemy(state: EnemyState, startLoc: Vec3, moveMod: int)

  const START_Z: real := 100.0
  const PATROL_DEPTH: real := 200.0
  /** The exclusive upper bounds of the draws that decide whether Idle and Patrol change. */
  const IDLE_DRAW_RANGE: int := 33
  const PATROL_DRAW_RANGE: int := 66

  /** The patrol direction of a sane enemy: down (-1) or up (1). */
  predicate IsDirection(m: int) {
    m == -1 || m == 1
  }

  /** The enemy component `spawn_enemy` attaches at a spawn point's translation. */
  function SpawnEnemy(at: Vec3): (en: Enemy)
    ensures en.state == Idle && en.moveMod == -1
    ensures en.startLoc == Vec3(at.x, at.y, START_Z)
    ensures IsDirection(en.moveMod)
  {
    Enemy(Idle, Vec3(at.x, at.y, 100.0), -1)
  }

  /** The range the state's random draw is taken from; Attack takes no draw. */
  function DrawRange(s: EnemyState): nat {
    match s
    case Idle => 33
    case Patrol => 66
    case Attack => 0
  }

  /**
   * One step of the state machine for a draw from `[0, DrawRange(s))`:
   * Idle and Patrol swap exactly on the draw 0, Attack is never entered nor left.
   */
  function NextState(s: EnemyState, draw: int): (r: EnemyState)
    ensures s == Idle ==> (r == Patrol <==> draw == 0) && (r != Patrol ==> r == Idle)
    ensures s == Patrol ==> (r == Idle <==> draw == 0) && (r != Idle ==> r == Patrol)
    ensures r == Attack <==> s == Attack
  {
    match s
    case Idle => if draw == 0 then Patrol else Idle
    case Patrol => if draw == 0 then Idle else Patrol
    case Attack => Attack
  }

  /** Exactly one draw out of the state's range changes Idle or Patrol, so they change with chance 1/33 and 1/66. */
  lemma OneDrawChanges(s: EnemyState)
    requires s != Attack
    ensures (set d | 0 <= d < DrawRange(s) && NextState(s, d) != s) == {0}
    ensures |set d | 0 <= d < DrawRange(s) && NextState(s, d) != s| == 1
  {
    var changing := set d | 0 <= d < DrawRange(s) && NextState(s, d) != s;
    assert 0 in changing;
    assert forall d :: d in changing ==> d == 0;
    assert changing == {0};
  }

  /**
   * The hysteresis of `move_mod` during a patrol: up (1) once more than
   * 200 units below the start, down (-1) once at or above the start, and
   * unchanged in between.
   */
  function PatrolMoveMod(moveMod: int, y: real, startY: real): (r: int)
    ensures y < startY - PATROL_DEPTH ==> r == 1
    ensures y >= startY ==> r == -1
    ensures startY - PATROL_DEPTH <= y < startY ==> r == moveMod
    ensures IsDirection(moveMod) ==> IsDirection(r)
  {
    if y < startY - 200.0 then 1
    else if y >= startY then -1
    else moveMod
  }

  /** The enemy after `move_down` looked at it at height `y`: only a patrolling enemy updates its direction. */
  function MoveStep(en: Enemy, y: real): (r: Enemy)
    ensures r.state == en.state && r.startLoc == en.startLoc
    ensures en.state != Patrol ==> r == en
    ensures en.state == Patrol ==> r.moveMod == PatrolMoveMod(en.moveMod, y, en.startLoc.y)
  {
    if en.state == Patrol then en.(moveMod := PatrolMoveMod(en.moveMod, y, en.startLoc.y)) else en
  }

  /** The enemy table after `rand_update_enemy_state` with per-enemy draws. */
  function StatePass(enemies: map<Entity, Enemy>, draw: Entity -> int): map<Entity, Enemy> {
    map e | e in enemies :: enemies[e].(state := NextState(enemies[e].state, draw(e)))
  }

  /** The enemy table after `move_down`: enemies with a transform and a velocity take a move step. */
  function MovePass(enemies: map<Entity, Enemy>, translations: map<Entity, Vec3>, velocities: set<Entity>): map<Entity, Enemy> {
    map e | e in enemies :: if e in translations && e in velocities then MoveStep(enemies[e], translations[e].y) else enemies[e]
  }

  /** Every enemy patrols up or down. */
  predicate AllDirections(enemies: map<Entity, Enemy>) {
    forall e :: e in enemies ==> IsDirection(enemies[e].moveMod)
  }

  /** The state pass changes only states, and keeps every Attack enemy attacking and no other enemy attacking. */
  lemma StatePassProperties(enemies: map<Entity, Enemy>, draw: Entity -> int)
    ensures StatePass(enemies, draw).Keys == enemies.Keys
    ensures forall e :: e in enemies ==>
              StatePass(enemies, draw)[e].startLoc == enemies[e].startLoc
              && StatePass(enemies, draw)[e].moveMod == enemies[e].moveMod
              && (StatePass(enemies, draw)[e].state == Attack <==> enemies[e].state == Attack)
    ensures AllDirections(enemies) ==> AllDirections(StatePass(enemies, draw))
  {
  }

  /** The move pass changes only the direction of patrolling enemies and keeps every direction up or down. */
  lemma MovePassProperties(enemies: map<Entity, Enemy>, translations: map<Entity, Vec3>, velocities: set<Entity>)
    ensures MovePass(enemies, translations, velocities).Keys == enemies.Keys
    ensures forall e :: e in enemies && enemies[e].state != Patrol ==> MovePass(enemies, translations, velocities)[e] == enemies[e]
    ensures AllDirections(enemies) ==> AllDirections(MovePass(enemies, translations, velocities))
  {
  }

  /** A patrolling enemy that starts at its spawn heads down, turns up below the band, and turns down again at the start. */
  lemma PatrolCycle(at: Vec3)
    ensures var en := SpawnEnemy(at).(state := Patrol);
            && MoveStep(en, at.y).moveMod == -1
            && MoveStep(en, at.y - 100.0).moveMod == -1
            && MoveStep(en, at.y - 201.0).moveMod == 1
            && MoveStep(MoveStep(en, at.y - 201.0), at.y - 100.0).moveMod == 1
            && MoveStep(MoveStep(MoveStep(en, at.y - 201.0), at.y - 100.0), at.y).moveMod == -1
  {
  }

  /** The enemy tables the AI systems touch. */
  class Enemies {
    var enemies: map<Entity, Enemy>
    var translations: map<Entity, Vec3>   // the Transform's translation
    var velocities: set<Entity>            // entities with a Velocity component

    constructor (enemies: map<Entity, Enemy>, translations: map<Entity, Vec3>, velocities: set<Entity>)
      ensures this.enemies == enemies && this.translations == translations && this.velocities == velocities
    {
      this.enemies := enemies;
      this.translations := translations;
      this.velocities := velocities;
    }

    /** Every enemy's direction is up or down. */
    predicate Valid()
      reads this
    {
      AllDirections(enemies)
    }

    /** `rand_update_enemy_state`, with the random draw for each enemy passed in. */
    method RandUpdateEnemyState(draw: Entity -> int)
      modifies this`enemies
      ensures enemies == StatePass(old(enemies), draw)
      ensures old(Valid()) ==> Valid()
    {
      var todo := enemies.Keys;
      ghost var before := enemies;
      while todo != {}
        invariant todo <= before.Keys == enemies.Keys
        invariant forall e :: e in todo ==> enemies[e] == before[e]
        invariant forall e :: e in before && e !in todo ==> enemies[e] == before[e].(state := NextState(before[e].state, draw(e)))
        decreases todo
      {
        var e :| e in todo;
        var en := enemies[e];
        match en.state {
          case Idle =>
            if draw(e) == 0 {
              enemies := enemies[e := en.(state := Patrol)];
            }
          case Patrol =>
            if draw(e) == 0 {
              enemies := enemies[e := en.(state := Idle)];
            }
          case Attack =>
        }
        todo := todo - {e};
      }
      StatePassProperties(before, draw);
    }

    /** The `move_mod` part of `move_down`: patrolling enemies update their direction from their height. */
    method MoveDown()
      modifies this`enemies
      ensures enemies == MovePass(old(enemies), translations, velocities)
      ensures old(Valid()) ==> Valid()
    {
      var todo := enemies.Keys * translations.Keys * velocities;
      ghost var before := enemies;
      ghost var query := todo;
      while todo != {}
        invariant todo <= query == before.Keys * translations.Keys * velocities
        invariant enemies.Keys == before.Keys
        invariant forall e :: e in before && e !in query - todo ==> enemies[e] == before[e]
        invariant forall e :: e in query - todo ==> enemies[e] == MoveStep(before[e], translations[e].y)
        decreases todo
      {
        var e :| e in todo;
        var en := enemies[e];
        if en.state == Patrol {
          var y := translations[e].y;
          if y < en.startLoc.y - 200.0 {
            en := en.(moveMod := 1);
          } else if y >= en.startLoc.y {
            en := en.(moveMod := -1);
          }
          enemies := enemies[e := en];
        }
        todo := todo - {e};
      }
      MovePassProperties(before, translations, velocities);
    }
  }
}
