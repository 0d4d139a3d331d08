/**
 * Collider marking: every map tile is looked at once; wall tiles get a
 * static cuboid body, every tile gets the `MapCollider` marker.
 */
module MapColliders {
  import opened Engine
  import opened Tags
  import LevelMap

  /** A static cuboid collision shape, by its half extents. */
  datatype Cuboid = Cuboid(halfExtends: Vec3)

  /** The half extents of a wall tile's body: half the tile's size, and its depth. */
  function HalfExtends(tile: LevelMap.MapTile): (r: Vec3)
    ensures 2.0 * r.x == tile.size.x && 2.0 * r.y == tile.size.y && r.z == tile.depth
  {
    Vec3(tile.size.x / 2.0, tile.size.y / 2.0, tile.depth)
  }

  /** The tiles the pass visits: those without the marker. */
  function Unmarked(tiles: map<Entity, LevelMap.MapTile>, colliders: set<Entity>): set<Entity> {
    tiles.Keys - colliders
  }

  /** The bodies after one pass: each unmarked wall tile gets its cuboid. */
  function BodyPass(tiles: map<Entity, LevelMap.MapTile>, colliders: set<Entity>, bodies: map<Entity, Cuboid>): map<Entity, Cuboid> {
    bodies + map e | e in Unmarked(tiles, colliders) && tiles[e].worldType == Wall :: Cuboid(HalfExtends(tiles[e]))
  }

  /**
   * One pass marks every tile; a wall tile that was not yet marked gets its
   * cuboid and any other tile gets no body; a second pass changes nothing.
   */
  lemma ColliderPassProperties(tiles: map<Entity, LevelMap.MapTile>, colliders: set<Entity>, bodies: map<Entity, Cuboid>)
    ensures forall e :: e in Unmarked(tiles, colliders) ==>
              (tiles[e].worldType == Wall ==> e in BodyPass(tiles, colliders, bodies) && BodyPass(tiles, colliders, bodies)[e] == Cuboid(HalfExtends(tiles[e])))
              && (tiles[e].worldType != Wall ==> (e in BodyPass(tiles, colliders, bodies) <==> e in bodies))
    ensures forall e :: e in bodies && !(e in Unmarked(tiles, colliders) && tiles[e].worldType == Wall)
              ==> BodyPass(tiles, colliders, bodies)[e] == bodies[e]
    ensures var colliders' := colliders + Unmarked(tiles, colliders);
            Unmarked(tiles, colliders') == {} && BodyPass(tiles, colliders', BodyPass(tiles, colliders, bodies)) == BodyPass(tiles, colliders, bodies)
  {
    var colliders' := colliders + Unmarked(tiles, colliders);
    var once := BodyPass(tiles, colliders, bodies);
    assert Unmarked(tiles, colliders') == {};
    assert BodyPass(tiles, colliders', once).Keys == once.Keys;
  }

  /** The tables `generate_colliders_for_map_tiles` touches. */
  class Tiles {
    var tiles: map<Entity, LevelMap.MapTile>
    var colliders: set<Entity>          // the MapCollider marker
    var bodies: map<Entity, Cuboid>     // static rigid body with its cuboid shape

    constructor (tiles: map<Entity, LevelMap.MapTile>)
      ensures this.tiles == tiles && colliders == {} && bodies == map[]
    {
      this.tiles := tiles;
      colliders := {};
      bodies := map[];
    }

    /** Every tile carries the marker. */
    predicate AllMarked()
      reads this
    {
      tiles.Keys <= colliders
    }

    /** `generate_colliders_for_map_tiles`. */
    method GenerateCollidersForMapTiles()
      modifies this`colliders, this`bodies
      ensures colliders == old(colliders) + Unmarked(tiles, old(colliders))
      ensures bodies == BodyPass(tiles, old(colliders), old(bodies))
      ensures AllMarked()
    {
      var todo := Unmarked(tiles, colliders);
      ghost var done: set<Entity> := {};
      ghost var before := bodies;
      while todo != {}
        invariant todo !! done && todo + done == Unmarked(tiles, old(colliders))
        invariant colliders == old(colliders) + done
        invariant forall e :: e in bodies <==> e in before || (e in done && tiles[e].worldType == Wall)
        invariant forall e :: e in bodies ==> bodies[e] == if e in done && tiles[e].worldType == Wall then Cuboid(HalfExtends(tiles[e])) else before[e]
        decreases todo
      {
        var e :| e in todo;
        var tile := tiles[e];
        if tile.worldType == Wall {
          bodies := bodies[e := Cuboid(HalfExtends(tile))];
        }
        colliders := colliders + {e};
        todo := todo - {e};
        done := done + {e};
      }
      assert bodies == BodyPass(tiles, old(colliders), before);
    }
  }
}
