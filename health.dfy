/**
 * Health and damage: creatures get default health, damage events drain it,
 * and a sweep removes every entity whose health changed and dropped to zero
 * or below.
 */
module HealthClass {
  import opened Engine

  /** A creature's health: the maximum and the current value, both i32. */
  datatype Health = Health(max: int, value: int)

  /** A damage event: take `damage` from `entity`'s health. */
  datatype Damaged = Damaged(damage: int, entity: Entity)

  const DEFAULT_HEALTH: int := 100

  /** `Health::default`: full health of 100 out of 100. */
  function Default(): (h: Health)
    ensures h.max == DEFAULT_HEALTH && h.value == h.max
  {
    Health(100, 100)
  }

  // ---------------------------------------------------------------------
  // The three passes on values

  /** Health tables after the insertion pass: every creature without health gets the default. */
  function WithDefaults(healths: map<Entity, Health>, creatures: set<Entity>): map<Entity, Health> {
    healths + map e | e in creatures && e !in healths :: Default()
  }

  /** One damage event applied: ignored when its target has no health. */
  function ApplyDamage(healths: map<Entity, Health>, ev: Damaged): map<Entity, Health> {
    if ev.entity in healths then healths[ev.entity := healths[ev.entity].(value := healths[ev.entity].value - ev.damage)]
    else healths
  }

  /** The health tables after the damage events, applied in order. */
  function Drain(healths: map<Entity, Health>, events: seq<Damaged>): map<Entity, Health> {
    if |events| == 0 then healths
    else ApplyDamage(Drain(healths, events[..|events| - 1]), events[|events| - 1])
  }

  /** The total damage the events deal to `e`. */
  function TotalDamage(events: seq<Damaged>, e: Entity): int {
    if |events| == 0 then 0
    else TotalDamage(events[..|events| - 1], e) + (if events[|events| - 1].entity == e then events[|events| - 1].damage else 0)
  }

  /** The entities whose health the events touch. */
  function Targets(healths: map<Entity, Health>, events: seq<Damaged>): set<Entity> {
    set i | 0 <= i < |events| && events[i].entity in healths :: events[i].entity
  }

  /** The entities the sweep removes: health changed and at most zero. */
  function Doomed(healths: map<Entity, Health>, changed: set<Entity>): set<Entity> {
    set e | e in changed && e in healths && healths[e].value <= 0
  }

  // ---------------------------------------------------------------------
  // Properties

  /** Insertion touches only creatures without health, so a second insertion changes nothing. */
  lemma WithDefaultsProperties(healths: map<Entity, Health>, creatures: set<Entity>)
    ensures WithDefaults(healths, creatures).Keys == healths.Keys + creatures
    ensures forall e :: e in healths ==> WithDefaults(healths, creatures)[e] == healths[e]
    ensures forall e :: e in creatures && e !in healths ==> WithDefaults(healths, creatures)[e] == Default()
    ensures WithDefaults(WithDefaults(healths, creatures), creatures) == WithDefaults(healths, creatures)
  {
    var once := WithDefaults(healths, creatures);
    assert (map e | e in creatures && e !in once :: Default()) == map[];
  }

  /**
   * Draining subtracts from each entity with health the sum of the damage
   * aimed at it, with no floor at zero and no cap at the maximum; the
   * maximum and the set of entities with health never change.
   */
  lemma {:induction false} DrainSums(healths: map<Entity, Health>, events: seq<Damaged>)
    ensures Drain(healths, events).Keys == healths.Keys
    ensures forall e :: e in healths ==>
              Drain(healths, events)[e] == Health(healths[e].max, healths[e].value - TotalDamage(events, e))
  {
    if |events| > 0 {
      DrainSums(healths, events[..|events| - 1]);
    }
  }

  /** Events aimed at entities without health change nothing. */
  lemma {:induction false} DrainIgnoresMissing(healths: map<Entity, Health>, events: seq<Damaged>)
    requires forall i :: 0 <= i < |events| ==> events[i].entity !in healths
    ensures Drain(healths, events) == healths
  {
    if |events| > 0 {
      DrainIgnoresMissing(healths, events[..|events| - 1]);
    }
  }

  /** Two hits of 60 on a fresh creature in one tick are summed before the sweep, which removes it. */
  lemma TwoHitsKill(e: Entity)
    ensures var drained := Drain(map[e := Default()], [Damaged(60, e), Damaged(60, e)]);
            e in drained && drained[e].value == -20 && e in Doomed(drained, {e})
  {
    var evs := [Damaged(60, e), Damaged(60, e)];
    DrainSums(map[e := Default()], evs);
    assert evs[..1] == [Damaged(60, e)];
    assert evs[..1][..0] == [];
    assert TotalDamage(evs[..1][..0], e) == 0;
    assert TotalDamage(evs[..1], e) == 60;
    assert TotalDamage(evs, e) == 120;
  }

  /** One hit of 30 on a fresh creature leaves 70, and the sweep keeps it. */
  lemma OneHitSurvives(e: Entity)
    ensures var drained := Drain(map[e := Default()], [Damaged(30, e)]);
            e in drained && drained[e].value == 70 && e !in Doomed(drained, {e})
  {
    var evs := [Damaged(30, e)];
    assert evs[..0] == [];
  }

  /** The entity tables the three health passes touch. */
  class Creatures {
    var creatures: set<Entity>      // the creature tag
    var healths: map<Entity, Health>
    var changed: set<Entity>        // health added or mutated since the sweep last looked

    constructor (creatures: set<Entity>)
      ensures this.creatures == creatures && healths == map[] && changed == {}
    {
      this.creatures := creatures;
      healths := map[];
      changed := {};
    }

    /** `insert_health_to_creatures`: default health for every creature that has none; an insertion counts as a change. */
    method InsertHealthToCreatures()
      modifies this`healths, this`changed
      ensures healths == WithDefaults(old(healths), creatures)
      ensures changed == old(changed) + (creatures - old(healths).Keys)
    {
      var todo := creatures - healths.Keys;
      ghost var done: set<Entity> := {};
      while todo != {}
        invariant todo !! done && todo + done == creatures - old(healths).Keys
        invariant healths.Keys == old(healths).Keys + done
        invariant forall e :: e in healths ==> healths[e] == if e in done then Default() else old(healths)[e]
        invariant changed == old(changed) + done
        decreases todo
      {
        var e :| e in todo;
        healths := healths[e := Default()];
        changed := changed + {e};
        todo := todo - {e};
        done := done + {e};
      }
      WithDefaultsProperties(old(healths), creatures);
    }

    /** `on_damage_drain_health`: each event whose target has health subtracts its damage, in order. */
    method OnDamageDrainHealth(events: seq<Damaged>)
      modifies this`healths, this`changed
      ensures healths == Drain(old(healths), events)
      ensures changed == old(changed) + Targets(old(healths), events)
    {
      var i := 0;
      while i < |events|
        invariant 0 <= i <= |events|
        invariant healths == Drain(old(healths), events[..i])
        invariant healths.Keys == old(healths).Keys
        invariant changed == old(changed) + Targets(old(healths), events[..i])
      {
        assert events[..i + 1][..i] == events[..i];
        var ev := events[i];
        if ev.entity in healths {
          healths := healths[ev.entity := healths[ev.entity].(value := healths[ev.entity].value - ev.damage)];
          changed := changed + {ev.entity};
        }
        assert Targets(old(healths), events[..i + 1]) == Targets(old(healths), events[..i]) + (if ev.entity in old(healths) then {ev.entity} else {});
        i := i + 1;
      }
      assert events[..i] == events;
    }

    /**
     * `despawn_if_zero_health`: remove every entity whose health changed and
     * is at most zero; the sweep has then seen every change.
     */
    method DespawnIfZeroHealth() returns (despawned: set<Entity>)
      modifies this`creatures, this`healths, this`changed
      ensures despawned == Doomed(old(healths), old(changed))
      ensures healths == old(healths) - despawned
      ensures creatures == old(creatures) - despawned
      ensures changed == {}
    {
      var todo := changed * healths.Keys;
      ghost var query := todo;
      despawned := {};
      while todo != {}
        invariant todo <= query == old(changed) * old(healths).Keys
        invariant despawned == set e | e in query - todo && old(healths)[e].value <= 0
        decreases todo
      {
        var e :| e in todo;
        if healths[e].value <= 0 {
          despawned := despawned + {e};
        }
        todo := todo - {e};
      }
      healths := healths - despawned;
      creatures := creatures - despawned;
      changed := {};
    }
  }
}
