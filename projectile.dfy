/**
 * Projectile collision routing: a started collision between a creature and a
 * projectile damages the creature and removes the projectile; a started
 * collision between the world and a projectile only removes the projectile.
 */
module ProjectileClass {
  import opened Wrappers
  import opened Engine
  import HealthClass

  /** The physics layers of the game. */
  datatype GameLayer = World | Player | Enemy | Projectile

  /** A body's collision layers: the groups it belongs to and the groups it collides with. */
  datatype CollisionLayers = CollisionLayers(groups: set<GameLayer>, masks: set<GameLayer>)

  /** One side of a collision: the rigid body's entity and its layers. */
  datatype CollisionData = CollisionData(rigidBody: Entity, layers: CollisionLayers)

  datatype CollisionEvent = Started(first: CollisionData, second: CollisionData) | Stopped(first: CollisionData, second: CollisionData)

  /** The projectile component: its size and the damage it deals. */
  datatype Projectile = Projectile(size: Vec2, damage: int)

  /** `Projectile::default`: a 30 by 30 projectile dealing 10 damage. */
  function DefaultProjectile(): (p: Projectile)
    ensures p.damage == 10 && p.size == Vec2(30.0, 30.0)
  {
    Projectile.Projectile(Vec2(30.0, 30.0), 10)
  }

  /** A body is a creature when it is in the player's or the enemies' group. */
  predicate IsCreature(l: CollisionLayers): (r: bool)
    ensures r <==> l.groups * {Player, Enemy} != {}
  {
    assert Player in l.groups ==> Player in l.groups * {Player, Enemy};
    assert Enemy in l.groups ==> Enemy in l.groups * {Player, Enemy};
    Player in l.groups || Enemy in l.groups
  }

  /** A body is a projectile when it is in the projectile group. */
  predicate IsProjectile(l: CollisionLayers): (r: bool)
    ensures r <==> l.groups * {GameLayer.Projectile} != {}
  {
    assert GameLayer.Projectile in l.groups ==> GameLayer.Projectile in l.groups * {GameLayer.Projectile};
    GameLayer.Projectile in l.groups
  }

  /** A body is part of the world when it is in the world group. */
  predicate IsWorld(l: CollisionLayers): (r: bool)
    ensures r <==> l.groups * {World} != {}
  {
    assert World in l.groups ==> World in l.groups * {World};
    World in l.groups
  }

  /** The three layer tests look at a body's groups only, never at its masks. */
  lemma LayerTestsIgnoreMasks(l: CollisionLayers, masks: set<GameLayer>)
    ensures IsCreature(CollisionLayers(l.groups, masks)) == IsCreature(l)
    ensures IsProjectile(CollisionLayers(l.groups, masks)) == IsProjectile(l)
    ensures IsWorld(CollisionLayers(l.groups, masks)) == IsWorld(l)
  {
  }

  /**
   * The (creature, projectile) pair of a collision, in whichever order the
   * two sides came; the first side is tried as the creature first.
   */
  function CreatureHit(ev: CollisionEvent): (r: Option<(Entity, Entity)>)
    ensures IsCreature(ev.first.layers) && IsProjectile(ev.second.layers) ==> r == Some((ev.first.rigidBody, ev.second.rigidBody))
    ensures !(IsCreature(ev.first.layers) && IsProjectile(ev.second.layers)) && IsProjectile(ev.first.layers) && IsCreature(ev.second.layers)
            ==> r == Some((ev.second.rigidBody, ev.first.rigidBody))
    ensures r.None? <==> !(IsCreature(ev.first.layers) && IsProjectile(ev.second.layers)) && !(IsProjectile(ev.first.layers) && IsCreature(ev.second.layers))
  {
    if IsCreature(ev.first.layers) && IsProjectile(ev.second.layers) then Some((ev.first.rigidBody, ev.second.rigidBody))
    else if IsProjectile(ev.first.layers) && IsCreature(ev.second.layers) then Some((ev.second.rigidBody, ev.first.rigidBody))
    else None
  }

  /** The (world, projectile) pair of a collision, in whichever order; the first side is tried as the world first. */
  function WorldHit(ev: CollisionEvent): (r: Option<(Entity, Entity)>)
    ensures IsWorld(ev.first.layers) && IsProjectile(ev.second.layers) ==> r == Some((ev.first.rigidBody, ev.second.rigidBody))
    ensures !(IsWorld(ev.first.layers) && IsProjectile(ev.second.layers)) && IsProjectile(ev.first.layers) && IsWorld(ev.second.layers)
            ==> r == Some((ev.second.rigidBody, ev.first.rigidBody))
    ensures r.None? <==> !(IsWorld(ev.first.layers) && IsProjectile(ev.second.layers)) && !(IsProjectile(ev.first.layers) && IsWorld(ev.second.layers))
  {
    if IsWorld(ev.first.layers) && IsProjectile(ev.second.layers) then Some((ev.first.rigidBody, ev.second.rigidBody))
    else if IsProjectile(ev.first.layers) && IsWorld(ev.second.layers) then Some((ev.second.rigidBody, ev.first.rigidBody))
    else None
  }

  /**
   * The damage one collision event sends: one event for the creature, with
   * the projectile's damage, when a started creature–projectile collision
   * names an entity that has the projectile component; nothing otherwise.
   */
  function DamageOf(ev: CollisionEvent, projectiles: map<Entity, Projectile>): (r: seq<HealthClass.Damaged>)
    ensures |r| <= 1
    ensures |r| == 1 <==> ev.Started? && CreatureHit(ev).Some? && CreatureHit(ev).value.1 in projectiles
    ensures |r| == 1 ==> r[0] == HealthClass.Damaged(projectiles[CreatureHit(ev).value.1].damage, CreatureHit(ev).value.0)
  {
    if ev.Started? then
      match CreatureHit(ev)
      case Some((creature, projectile)) =>
        if projectile in projectiles then [HealthClass.Damaged(projectiles[projectile].damage, creature)] else []
      case None => []
    else []
  }

  /** The projectile the damage pass removes for one event, if any. */
  function StruckProjectile(ev: CollisionEvent, projectiles: map<Entity, Projectile>): (r: Option<Entity>)
    ensures r.Some? <==> DamageOf(ev, projectiles) != []
    ensures r.Some? ==> r.value in projectiles
  {
    if DamageOf(ev, projectiles) != [] then Some(CreatureHit(ev).value.1) else None
  }

  /** The projectile the world pass removes for one event, if any: only started world–projectile collisions. */
  function WallProjectile(ev: CollisionEvent): (r: Option<Entity>)
    ensures r.Some? <==> ev.Started? && WorldHit(ev).Some?
  {
    if ev.Started? && WorldHit(ev).Some? then Some(WorldHit(ev).value.1) else None
  }

  /** The damage events of a batch of collisions, in order. */
  function DamageEvents(events: seq<CollisionEvent>, projectiles: map<Entity, Projectile>): (r: seq<HealthClass.Damaged>)
    ensures |r| <= |events|
    ensures forall k :: 0 <= k < |r| ==> exists i :: 0 <= i < |events| && DamageOf(events[i], projectiles) == [r[k]]
  {
    if |events| == 0 then []
    else
      var init := events[..|events| - 1];
      var r := DamageEvents(init, projectiles) + DamageOf(events[|events| - 1], projectiles);
      assert forall i :: 0 <= i < |init| ==> init[i] == events[i];
      r
  }

  /** The projectiles a batch of collisions removes through damage. */
  function StruckProjectiles(events: seq<CollisionEvent>, projectiles: map<Entity, Projectile>): set<Entity> {
    set i | 0 <= i < |events| && StruckProjectile(events[i], projectiles).Some? :: StruckProjectile(events[i], projectiles).value
  }

  /** The projectiles a batch of collisions removes through the world. */
  function WallProjectiles(events: seq<CollisionEvent>): set<Entity> {
    set i | 0 <= i < |events| && WallProjectile(events[i]).Some? :: WallProjectile(events[i]).value
  }

  // ---------------------------------------------------------------------
  // Properties

  /** Every damaging event of the batch is sent: nothing is dropped. */
  lemma {:induction false} DamageEventsComplete(events: seq<CollisionEvent>, projectiles: map<Entity, Projectile>, i: int)
    requires 0 <= i < |events| && DamageOf(events[i], projectiles) != []
    ensures DamageOf(events[i], projectiles)[0] in DamageEvents(events, projectiles)
  {
    var init := events[..|events| - 1];
    if i < |events| - 1 {
      assert init[i] == events[i];
      DamageEventsComplete(init, projectiles, i);
    }
  }

  /** Each damage event goes to a creature, with the damage of an existing projectile that hit it. */
  lemma DamageEventsSound(events: seq<CollisionEvent>, projectiles: map<Entity, Projectile>, k: int)
    requires 0 <= k < |DamageEvents(events, projectiles)|
    ensures exists i :: 0 <= i < |events| && events[i].Started? && CreatureHit(events[i]).Some?
              && CreatureHit(events[i]).value.0 == DamageEvents(events, projectiles)[k].entity
              && CreatureHit(events[i]).value.1 in projectiles
              && projectiles[CreatureHit(events[i]).value.1].damage == DamageEvents(events, projectiles)[k].damage
  {
    var i :| 0 <= i < |events| && DamageOf(events[i], projectiles) == [DamageEvents(events, projectiles)[k]];
  }

  /** Ended collisions and collisions without both a creature and a projectile side send no damage. */
  lemma {:induction false} NoDamageWithoutHits(events: seq<CollisionEvent>, projectiles: map<Entity, Projectile>)
    requires forall i :: 0 <= i < |events| ==> events[i].Stopped? || CreatureHit(events[i]).None?
    ensures DamageEvents(events, projectiles) == []
    ensures StruckProjectiles(events, projectiles) == {}
  {
    if |events| > 0 {
      NoDamageWithoutHits(events[..|events| - 1], projectiles);
    }
  }

  /** A world–projectile collision between bodies that are no creatures removes the projectile and damages nothing. */
  lemma WallHitOnlyDespawns(w: Entity, p: Entity, wall: CollisionLayers, shot: CollisionLayers, projectiles: map<Entity, Projectile>)
    requires IsWorld(wall) && !IsCreature(wall) && !IsProjectile(wall)
    requires IsProjectile(shot) && !IsCreature(shot) && !IsWorld(shot)
    ensures DamageOf(Started(CollisionData(w, wall), CollisionData(p, shot)), projectiles) == []
    ensures DamageOf(Started(CollisionData(p, shot), CollisionData(w, wall)), projectiles) == []
    ensures WallProjectile(Started(CollisionData(w, wall), CollisionData(p, shot))) == Some(p)
    ensures WallProjectile(Started(CollisionData(p, shot), CollisionData(w, wall))) == Some(p)
  {
  }

  /** An enemy hit by a player's projectile, in either order, takes that projectile's damage and the projectile goes. */
  lemma EnemyStruck(en: Entity, p: Entity, projectiles: map<Entity, Projectile>)
    requires p in projectiles
    ensures var enemy := CollisionData(en, CollisionLayers({Enemy}, {World, Player}));
            var shot := CollisionData(p, CollisionLayers({GameLayer.Projectile}, {World, Enemy, Player}));
            && DamageEvents([Started(enemy, shot)], projectiles) == [HealthClass.Damaged(projectiles[p].damage, en)]
            && DamageEvents([Started(shot, enemy)], projectiles) == [HealthClass.Damaged(projectiles[p].damage, en)]
            && StruckProjectiles([Started(enemy, shot), Started(shot, enemy)], projectiles) == {p}
            && DamageEvents([Stopped(enemy, shot)], projectiles) == []
  {
    var enemy := CollisionData(en, CollisionLayers({Enemy}, {World, Player}));
    var shot := CollisionData(p, CollisionLayers({GameLayer.Projectile}, {World, Enemy, Player}));
    assert [Started(enemy, shot)][..0] == [];
    assert [Started(shot, enemy)][..0] == [];
    assert [Stopped(enemy, shot)][..0] == [];
    var both := [Started(enemy, shot), Started(shot, enemy)];
    assert StruckProjectile(both[0], projectiles) == Some(p);
    assert StruckProjectile(both[1], projectiles) == Some(p);
    assert StruckProjectiles(both, projectiles) == {p};
  }

  /** `on_collide_apply_damage`: the damage events sent and the projectiles removed, for a batch of collisions. */
  method OnCollideApplyDamage(events: seq<CollisionEvent>, projectiles: map<Entity, Projectile>)
    returns (damaged: seq<HealthClass.Damaged>, despawned: set<Entity>)
    ensures damaged == DamageEvents(events, projectiles)
    ensures despawned == StruckProjectiles(events, projectiles)
    ensures despawned <= projectiles.Keys
  {
    damaged := [];
    despawned := {};
    var i := 0;
    while i < |events|
      invariant 0 <= i <= |events|
      invariant damaged == DamageEvents(events[..i], projectiles)
      invariant despawned == StruckProjectiles(events[..i], projectiles)
    {
      var ev := events[i];
      assert events[..i + 1][..i] == events[..i];
      if ev.Started? {
        var pair: Option<(Entity, Entity)> := None;
        if IsCreature(ev.first.layers) && IsProjectile(ev.second.layers) {
          pair := Some((ev.first.rigidBody, ev.second.rigidBody));
        } else if IsProjectile(ev.first.layers) && IsCreature(ev.second.layers) {
          pair := Some((ev.second.rigidBody, ev.first.rigidBody));
        }
        if pair.Some? {
          var (creature, projectile) := pair.value;
          if projectile in projectiles {
            damaged := damaged + [HealthClass.Damaged(projectiles[projectile].damage, creature)];
            despawned := despawned + {projectile};
          }
        }
      }
      assert StruckProjectiles(events[..i + 1], projectiles) == StruckProjectiles(events[..i], projectiles)
        + (if StruckProjectile(ev, projectiles).Some? then {StruckProjectile(ev, projectiles).value} else {});
      i := i + 1;
    }
    assert events[..i] == events;
  }

  /** `on_collide_despawn`: the projectiles removed by hitting the world, for a batch of collisions. */
  method OnCollideDespawn(events: seq<CollisionEvent>) returns (despawned: set<Entity>)
    ensures despawned == WallProjectiles(events)
    ensures forall p :: p in despawned <==> exists i :: 0 <= i < |events| && WallProjectile(events[i]) == Some(p)
  {
    despawned := {};
    var i := 0;
    while i < |events|
      invariant 0 <= i <= |events|
      invariant despawned == WallProjectiles(events[..i])
    {
      var ev := events[i];
      assert events[..i + 1][..i] == events[..i];
      if ev.Started? {
        if IsWorld(ev.first.layers) && IsProjectile(ev.second.layers) {
          despawned := despawned + {ev.second.rigidBody};
        } else if IsProjectile(ev.first.layers) && IsWorld(ev.second.layers) {
          despawned := despawned + {ev.first.rigidBody};
        }
      }
      assert WallProjectiles(events[..i + 1]) == WallProjectiles(events[..i])
        + (if WallProjectile(ev).Some? then {WallProjectile(ev).value} else {});
      i := i + 1;
    }
    assert events[..i] == events;
  }
}
