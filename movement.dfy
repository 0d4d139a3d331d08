/**
 * Facing: the last movement direction a creature's velocity points to, and
 * the sprite index that shows it.
 */
module MovementClass {
  import opened Engine

  datatype MovementDirection = Up | Down | Left | Right

  /** `map_direction_to_sprite`: the sprite-sheet index of each facing. */
  function SpriteIndex(d: MovementDirection): (r: nat)
    ensures r < 4
  {
    match d
    case Up => 3
    case Down => 0
    case Left => 2
    case Right => 1
  }

  /** The facing a sprite index shows, the inverse of `SpriteIndex`. */
  function DirectionOfSprite(i: nat): (r: MovementDirection)
    requires i < 4
  {
    if i == 0 then Down else if i == 1 then Right else if i == 2 then Left else Up
  }

  /** The sprite indices are exactly 0..3, one per facing. */
  lemma SpriteIndexBijective()
    ensures forall d :: DirectionOfSprite(SpriteIndex(d)) == d
    ensures forall i: nat :: i < 4 ==> SpriteIndex(DirectionOfSprite(i)) == i
    ensures forall d1, d2 :: SpriteIndex(d1) == SpriteIndex(d2) ==> d1 == d2
  {
    forall d1, d2 | SpriteIndex(d1) == SpriteIndex(d2)
      ensures d1 == d2
    {
      assert DirectionOfSprite(SpriteIndex(d1)) == d1;
    }
  }

  function Abs(r: real): real {
    if r < 0.0 then -r else r
  }

  /**
   * The facing chosen for a velocity, given the previous facing. The rule
   * is stated on the raw components: normalising a non-zero vector keeps
   * the signs and the order of |x| and |y|. A velocity with zero x and y
   * but non-zero z normalises to (0, 0, ±1) and faces Down; the all-zero
   * velocity normalises to NaN components, which match no arm, so the
   * previous facing stays.
   */
  function PrimaryDirection(prev: MovementDirection, v: Vec3): (r: MovementDirection)
    ensures v.x == 0.0 && v.y == 0.0 ==> r == (if v.z == 0.0 then prev else Down)
    ensures Abs(v.x) > Abs(v.y) ==> r == (if v.x > 0.0 then Right else Left)
    ensures Abs(v.y) > Abs(v.x) ==> r == (if v.y > 0.0 then Up else Down)
    ensures Abs(v.x) == Abs(v.y) && v.x != 0.0 ==> r == prev
  {
    if v.x == 0.0 && v.y == 0.0 then (if v.z == 0.0 then prev else Down)
    else if Abs(v.x) > Abs(v.y) then (if v.x > 0.0 then Right else Left)
    else if Abs(v.y) > Abs(v.x) then (if v.y > 0.0 then Up else Down)
    else prev
  }

  /** Scaling a velocity by a positive factor never changes the facing, so the raw components decide as the normalised ones do. */
  lemma ScaleInvariant(prev: MovementDirection, v: Vec3, k: real)
    requires k > 0.0
    ensures PrimaryDirection(prev, Vec3(k * v.x, k * v.y, k * v.z)) == PrimaryDirection(prev, v)
  {
    var w := Vec3(k * v.x, k * v.y, k * v.z);
    assert Abs(w.x) == k * Abs(v.x);
    assert Abs(w.y) == k * Abs(v.y);
    assert Abs(w.x) > Abs(w.y) <==> Abs(v.x) > Abs(v.y);
    assert Abs(w.y) > Abs(w.x) <==> Abs(v.y) > Abs(v.x);
    assert w.x > 0.0 <==> v.x > 0.0;
    assert w.y > 0.0 <==> v.y > 0.0;
    assert w.x == 0.0 <==> v.x == 0.0;
    assert w.y == 0.0 <==> v.y == 0.0;
    assert w.z == 0.0 <==> v.z == 0.0;
  }

  /** Re-reading the same velocity keeps the facing just chosen. */
  lemma PrimaryDirectionStable(prev: MovementDirection, v: Vec3)
    ensures PrimaryDirection(PrimaryDirection(prev, v), v) == PrimaryDirection(prev, v)
  {
  }

  /** The facings after `update_last_direction`: entities whose velocity changed face its primary direction. */
  function DirectionPass(velocities: map<Entity, Vec3>, velocityChanged: set<Entity>, directions: map<Entity, MovementDirection>)
    : map<Entity, MovementDirection>
  {
    map e | e in directions :: if e in velocityChanged && e in velocities then PrimaryDirection(directions[e], velocities[e]) else directions[e]
  }

  /** The entities whose facing `update_last_direction` writes: only those where it differs. */
  function Turned(velocities: map<Entity, Vec3>, velocityChanged: set<Entity>, directions: map<Entity, MovementDirection>): set<Entity> {
    set e | e in directions && e in velocityChanged && e in velocities && PrimaryDirection(directions[e], velocities[e]) != directions[e]
  }

  /** The sprite indices after `animate_creature`: creatures whose facing changed show it. */
  function SpritePass(sprites: map<Entity, nat>, directions: map<Entity, MovementDirection>, directionChanged: set<Entity>, creatures: set<Entity>)
    : map<Entity, nat>
  {
    map e | e in sprites :: if e in directionChanged && e in creatures && e in directions then SpriteIndex(directions[e]) else sprites[e]
  }

  /** A facing is marked changed exactly when it takes a new value; the write-only-if-different rule makes a second pass a no-op. */
  lemma DirectionPassProperties(velocities: map<Entity, Vec3>, velocityChanged: set<Entity>, directions: map<Entity, MovementDirection>)
    ensures DirectionPass(velocities, velocityChanged, directions).Keys == directions.Keys
    ensures forall e :: e in directions ==>
              (e in Turned(velocities, velocityChanged, directions) <==> DirectionPass(velocities, velocityChanged, directions)[e] != directions[e])
    ensures var next := DirectionPass(velocities, velocityChanged, directions);
            DirectionPass(velocities, velocityChanged, next) == next && Turned(velocities, velocityChanged, next) == {}
  {
    var next := DirectionPass(velocities, velocityChanged, directions);
    forall e | e in next && e in velocityChanged && e in velocities
      ensures PrimaryDirection(next[e], velocities[e]) == next[e]
    {
      PrimaryDirectionStable(directions[e], velocities[e]);
    }
  }

  /** After both passes every turned creature with a sprite shows its new facing. */
  lemma TurnedCreaturesShowFacing(velocities: map<Entity, Vec3>, velocityChanged: set<Entity>, directions: map<Entity, MovementDirection>,
                                  sprites: map<Entity, nat>, creatures: set<Entity>, e: Entity)
    requires e in Turned(velocities, velocityChanged, directions) && e in sprites && e in creatures
    ensures var next := DirectionPass(velocities, velocityChanged, directions);
            SpritePass(sprites, next, Turned(velocities, velocityChanged, directions), creatures)[e]
              == SpriteIndex(PrimaryDirection(directions[e], velocities[e]))
  {
  }

  /** The tables the facing systems touch. */
  class Facing {
    var velocities: map<Entity, Vec3>          // linear velocity
    var velocityChanged: set<Entity>
    var directions: map<Entity, MovementDirection>  // LastMovementDirection
    var directionChanged: set<Entity>
    var creatures: set<Entity>                  // the creature tag
    var sprites: map<Entity, nat>               // TextureAtlasSprite index

    constructor (velocities: map<Entity, Vec3>, directions: map<Entity, MovementDirection>, creatures: set<Entity>, sprites: map<Entity, nat>)
      ensures this.velocities == velocities && this.directions == directions
      ensures this.creatures == creatures && this.sprites == sprites
      ensures velocityChanged == velocities.Keys && directionChanged == directions.Keys
    {
      this.velocities := velocities;
      this.directions := directions;
      this.creatures := creatures;
      this.sprites := sprites;
      velocityChanged := velocities.Keys;
      directionChanged := directions.Keys;
    }

    /** `update_last_direction`: changed velocities update the facing, written only when it differs. */
    method UpdateLastDirection()
      modifies this`directions, this`directionChanged, this`velocityChanged
      ensures directions == DirectionPass(velocities, old(velocityChanged), old(directions))
      ensures directionChanged == old(directionChanged) + Turned(velocities, old(velocityChanged), old(directions))
      ensures velocityChanged == {}
    {
      var todo := velocityChanged * velocities.Keys * directions.Keys;
      ghost var done: set<Entity> := {};
      ghost var before := directions;
      while todo != {}
        invariant todo !! done && todo + done == old(velocityChanged) * velocities.Keys * before.Keys
        invariant directions.Keys == before.Keys
        invariant forall e :: e in directions ==> directions[e] == if e in done then PrimaryDirection(before[e], velocities[e]) else before[e]
        invariant forall e :: e in directionChanged <==>
                    e in old(directionChanged) || (e in done && PrimaryDirection(before[e], velocities[e]) != before[e])
        decreases todo
      {
        var e :| e in todo;
        var dir := directions[e];
        var newDir := PrimaryDirection(dir, velocities[e]);
        if dir != newDir {
          directions := directions[e := newDir];
          directionChanged := directionChanged + {e};
        }
        todo := todo - {e};
        done := done + {e};
      }
      assert directionChanged == old(directionChanged) + Turned(velocities, old(velocityChanged), before);
      velocityChanged := {};
    }

    /** `animate_creature`: creatures whose facing changed show its sprite. */
    method AnimateCreature()
      modifies this`sprites, this`directionChanged
      ensures sprites == SpritePass(old(sprites), directions, old(directionChanged), creatures)
      ensures directionChanged == {}
    {
      var todo := directionChanged * creatures * directions.Keys * sprites.Keys;
      ghost var done: set<Entity> := {};
      ghost var before := sprites;
      while todo != {}
        invariant todo !! done && todo + done == old(directionChanged) * creatures * directions.Keys * before.Keys
        invariant sprites.Keys == before.Keys
        invariant forall e :: e in sprites ==> sprites[e] == if e in done then SpriteIndex(directions[e]) else before[e]
        decreases todo
      {
        var e :| e in todo;
        sprites := sprites[e := SpriteIndex(directions[e])];
        todo := todo - {e};
        done := done + {e};
      }
      directionChanged := {};
    }
  }
}
