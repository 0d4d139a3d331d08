# rusty-jam-08-21 core, modelled in Dafny

This project models the deterministic rules of a small top-down action game
built on the Bevy ECS with the heron physics plugin. A level comes from an
LDtk map document. Each rule is modelled as its own system:

- **Map ingestion** (`LevelMap`, `MapUtils`, `Tags`, `MapColliders`):
  - `init_map` builds the tileset assets and per-tile custom data.
  - `update_map` loads the current level once, behind the `reload` flag.
    - Layers are walked from the last to the first.
    - Each layer gets depth `(25 - index) * 2`.
    - Tiles get a world type from their custom data.
    - Entity instances become `MapEntity` records with a field bag.
    - Positions go through `convert_to_world`, which flips y.
  - `generate_colliders_for_map_tiles` marks every tile and gives walls a static cuboid.
- **Entity classification** (`Indexer`, `ParseFields`, and the parsers in
  `StartLocationClass`, `DoorClass`, `PatrolPathClass`, `GoldClass`):
  - `index_entities` dispatches every unmarked map entity on its exact name.
  - It attaches the parsed component on success.
  - It always attaches the `EntityIndexed` marker.
- **Spawn resolver** (`StartLocationClass`): `spawn_from_spawn_location` spawns one character per tick per spawn point until the quota is reached.
- **Health** (`HealthClass`):
  - creatures get default health;
  - `Damaged` events drain it;
  - a sweep despawns entities whose health changed and is at most zero.
- **Projectiles** (`ProjectileClass`): started collisions are routed by layer group into damage events and projectile despawns.
- **Enemy AI** (`EnemyClass`): the Idle/Patrol random state machine and the patrol direction's hysteresis.
- **Facing** (`MovementClass`): the dominant-axis rule for the last movement direction, and the direction-to-sprite index.

How the engine is represented:

- The ECS world is a set of tables keyed by `Entity` (a `nat`): one `map` per component with data, one `set` per marker.
- Change detection (`Changed<T>`) is an explicit set of entities.
- Each system that changes components in place is a method on a small class holding exactly the tables its query touches.
  - The method's contract ties the new tables to a specification function of the old ones.
  - The properties are proved as lemmas about that function.
- Functions that only compute are Dafny functions with lemmas.
- Panics are explicit outcomes:
  - `Parsed.Panic` for the parsers;
  - `None` from the map-loading functions;
  - the `panicked` and `aborted` out-parameters of the systems.
- A system that panics commits nothing, since its `Commands` are never applied.
- Random draws are parameters.
- Floats are `real`.
- The `as i32` casts are modelled as wrap-around modulo 2^32 (`Numeric.AsI32`).

## Model

| member | source | states |
|---|---|---|
| Tags.WorldTypeFromStr | src/tags.rs:11-17 | "Wall" reads as Wall and "Floor" as Air. Every other string reads as nothing, the empty string and other casings included. |
| Tags.NameRoundTrip | src/tags.rs:11-17 | The name of each world type that can be read (Wall, Air) reads back as that type. |
| Tags.ReadIsName | src/tags.rs:11-17 | A string reads as a world type only if it is that type's name. |
| Tags.NeverDoorOrNothing | src/tags.rs:3-16 | Door and Nothing are never produced from a string. |
| Numeric.AsI32 | src/entity_class/gold.rs:31 | An `as i32` cast lands in the i32 range and differs from its input by a multiple of 2^32. |
| Numeric.AsI32OfI32 | src/entity_class/gold.rs:31 | Casting a value already in the i32 range leaves it unchanged. |
| Numeric.AsI32Periodic | src/entity_class/gold.rs:31 | Inputs 2^32 apart cast to the same i32. |
| Json.AsI64 | src/entity_class/start_location.rs:35 | A JSON number has an i64 value exactly when it is an integer in the i64 range. |
| DoorClass.Parse | src/entity_class/door.rs:6-16 | Every field bag, the empty one included, parses to `Ok(Door)`. It never fails. |
| DoorClass.ParseIgnoresFields | src/entity_class/door.rs:10-15 | Any two field bags parse to the same result. |
| PatrolPathClass.Parse | src/entity_class/patrol_path.rs:7-19 | Every field bag parses to `Ok(PatrolPath)`, a value with no data: no waypoints are read. |
| PatrolPathClass.ParseIgnoresFields | src/entity_class/patrol_path.rs:13-18 | Any two field bags parse to the same result. |
| GoldClass.Parse | src/entity_class/gold.rs:18-34 | A missing, null or non-number "Value" is InvalidParse. A non-i64 number panics. An i64 number always parses, to `Ok` of that number cast to i32, and no other value is `Ok`; the value is always in the i32 range. |
| GoldClass.ParseFieldsRoundTrip | src/entity_class/gold.rs:20-34 | Every i32 gold value written as a field bag parses back to itself. |
| GoldClass.ParseWraps | src/entity_class/gold.rs:26-31 | Two i64 values 2^32 apart parse to the same gold: the cast truncates. |
| StartLocationClass.FromString | src/entity_class/start_location.rs:47-55 | "Player" gives Player and "Enemy" gives Enemy, each if and only if. Any other string is the binding error for that string. |
| StartLocationClass.FromStringName | src/entity_class/start_location.rs:47-55 | Each kind's name reads back as the kind, and no other string does. |
| StartLocationClass.Parse | src/entity_class/start_location.rs:17-45 | "Character" is checked first: absent, null or non-string is InvalidParse, an unknown name is the binding error. Then "Count": absent, null or non-number is InvalidParse, and a non-i64 number panics (if and only if). A known name with an i64 count always parses, to `Ok` of that kind with that count and spawned 0. Conversely, on success the character's name is the string and count is the i64 field value. |
| StartLocationClass.ParseFieldsRoundTrip | src/entity_class/start_location.rs:25-45 | A spawn point written as a field bag parses back with the same kind and count, and spawned reset to 0. |
| StartLocationClass.Step | src/entity_class/start_location.rs:64-69 | One pass raises spawned by exactly one when it is under count and leaves it unchanged otherwise. Kind and count never change, and a point within quota stays within it. |
| StartLocationClass.RunCount | src/entity_class/start_location.rs:63-70 | After n passes: once at or over quota, spawned stays unchanged; otherwise it is min(spawned + n, count). One character is spawned per increment, and kind and count never change. |
| StartLocationClass.FreshRun | src/entity_class/start_location.rs:39-43 | A freshly parsed spawn point has spawned min(n, max(count, 0)) after n passes. A quota of 0 or less spawns nothing. |
| StartLocationClass.RunBounded | src/entity_class/start_location.rs:64-69 | spawned never decreases, never exceeds max(count, spawned), and never leaves the i64 range, so `+= 1` cannot overflow. |
| StartLocationClass.SpawnsOfPerPoint | src/entity_class/start_location.rs:63-71 | A positioned spawn point issues a spawn exactly when spawned < count. That spawn has the point's kind and position, and the point steps exactly once. |
| StartLocationClass.SpawnPoints.SpawnFromSpawnLocation | src/entity_class/start_location.rs:57-72 | Each spawn point with a transform takes one step. The spawns issued are one per point under quota. |
| MapUtils.ConvertToWorld | src/map/utils.rs:6-23 | Returns (x, -y, z). |
| MapUtils.ConvertIgnoresLayout | src/map/utils.rs:7-10 | Width, height, grid size and scale do not affect the result. |
| MapUtils.ConvertInjective | src/map/utils.rs:15-22 | Different pixel positions never land on the same world position. |
| LevelMap.CustomDataEntry | src/map/mod.rs:112-125 | A custom-data entry panics unless it has a non-null "tileId" that is an i64 number and a non-null string "data" (if and only if). On success it yields exactly those two values. |
| LevelMap.CustomDataLastWins | src/map/mod.rs:111-127 | Reading a tileset's custom data panics exactly when some entry panics. Otherwise the map holds exactly the entries' tile ids, each with the data of its last entry. |
| LevelMap.BuildCustomData | src/map/mod.rs:111-126 | The custom-data loop computes `CustomDataOf`. |
| LevelMap.TilesetAssetsCover | src/map/mod.rs:95-133 | After a load without panic, sprite sheets and custom data are keyed by exactly the tilesets' `uid as i32`. |
| LevelMap.LoadTilesets | src/map/mod.rs:95-133 | The tileset loop computes `TilesetAssets`, stopping at the first panic. |
| LevelMap.InitMap | src/map/mod.rs:74-157 | The map resource starts at level 0 with `reload` set, and the assets are `TilesetAssets` of the document. |
| LevelMap.Map.constructor | src/map/mod.rs:82-86 | A new map shows level 0 and is waiting to load. |
| LevelMap.LayerDepth | src/map/mod.rs:184 | A layer's depth is even and at most 50, the first layer sits at 50, and the depth is non-negative exactly for the first 26 layers. |
| LevelMap.DepthDecreasing | src/map/mod.rs:165-184 | Layer i's depth (25 - i) * 2 is strictly greater than that of every later layer, by 2 per layer. |
| LevelMap.FieldBagKeys | src/map/mod.rs:233-239 | An entity's field bag holds exactly the identifiers of its field instances. |
| LevelMap.FieldBagLastWins | src/map/mod.rs:233-239 | Each identifier holds the value of its last occurrence: a later duplicate overwrites an earlier one. |
| LevelMap.BuildFields | src/map/mod.rs:233-239 | The field loop computes `FieldBagOf`. |
| LevelMap.TileWorldType | src/map/mod.rs:217-225 | A tile's world type is always Wall or Air, never Door or Nothing. |
| LevelMap.TileWorldTypeCases | src/map/mod.rs:217-225 | A tile is a Wall exactly when its tileset's custom data for it is "Wall". Missing data, "Floor" and unknown strings all give Air. |
| LevelMap.Placement | src/map/mod.rs:297-314 | The map module's own copy of `convert_to_world`, applied to a pixel position cast to i32, places it at (x, -y, layer depth). Layer size, grid size and scale play no part. |
| LevelMap.LayerSpawns | src/map/mod.rs:189-288 | A layer fails (the source panics) exactly when it is a non-empty "Tiles" layer whose tileset has no sprite sheet, or an "Entities" layer with an instance drawn from such a tileset. Otherwise it spawns one value per grid tile, one per entity instance, or nothing for any other layer type. |
| LevelMap.OtherLayersSpawnNothing | src/map/mod.rs:283-288 | Layer types other than "Tiles" and "Entities" spawn nothing. |
| LevelMap.EntityLayerSpawns | src/map/mod.rs:229-281 | An "Entities" layer spawns one map entity per instance, in order, with or without a tile. Each is named by the instance identifier, carries its field bag, and sits at (x, -y, layer depth). |
| LevelMap.TileLayerSpawns | src/map/mod.rs:190-227 | A "Tiles" layer spawns one tile per grid tile, in order, at (x, -y, layer depth). Its depth is the layer depth and its world type comes from the custom data. Its size is the whole layer's pixel size times the scale once more. |
| LevelMap.SpawnLayer | src/map/mod.rs:173-289 | One layer's loop computes `LayerSpawns`, panicking on a missing sprite sheet. |
| LevelMap.Map.UpdateMap | src/map/mod.rs:159-293 | Without `reload` it does nothing. With `reload` it panics exactly when the level's spawns panic; otherwise it spawns the layers from the last to the first and clears `reload`. A panic commits nothing. |
| LevelMap.LoadsOnce | src/map/mod.rs:159-163 | After a load without panic, a second `update_map` spawns nothing. |
| MapColliders.HalfExtends | src/map/map_colliders.rs:19 | The cuboid's half extents are half the tile's size, with the tile's depth as z. |
| MapColliders.ColliderPassProperties | src/map/map_colliders.rs:10-25 | One pass marks every tile. An unmarked wall gets its cuboid, and other tiles get no body. Marked tiles and earlier bodies are untouched, and a second pass changes nothing. |
| MapColliders.Tiles.GenerateCollidersForMapTiles | src/map/map_colliders.rs:8-26 | The marker goes on every unmarked tile, bodies are `BodyPass` of the old tables, and every tile ends up marked. |
| Indexer.Classify | src/entity_class/indexer.rs:28-61 | Each outcome holds if and only if its condition does. "Start_Location" attaches the parsed start location on success, marks only on a parse error, and aborts on a panic. "Door" attaches a door. Every other name marks only, as unknown. |
| Indexer.UndispatchedNames | src/entity_class/indexer.rs:52-60 | "Gold", "Patrol_Path" and other casings of the known names are marked only. |
| Indexer.Outcomes | src/entity_class/indexer.rs:45-48 | One pass visits exactly the map entities without the marker. |
| Indexer.PassMarksAll | src/entity_class/indexer.rs:34-39 | After a pass every map entity is marked, whatever its outcome. |
| Indexer.PassIdempotent | src/entity_class/indexer.rs:45 | A second pass visits nothing, cannot panic, and changes nothing. |
| Indexer.PassPerEntity | src/entity_class/indexer.rs:48-61 | What a pass does to an entity depends only on that entity's name and fields. A success attaches its component, and a failure or unknown name attaches none. |
| Indexer.PassLeavesIndexed | src/entity_class/indexer.rs:45 | Entities already marked keep exactly the components they had. |
| Indexer.PassPreservesValid | src/entity_class/indexer.rs:34-38 | Typed components sit only on marked entities, and no entity gets two. |
| Indexer.Entities.IndexEntities | src/entity_class/indexer.rs:43-70 | The pass aborts exactly when some pending entity's parser panics, and then nothing changes. Otherwise the tables become `IndexPass` of the old ones. |
| HealthClass.Default | src/entity_class/health.rs:14-21 | Default health is 100 of 100. |
| HealthClass.WithDefaultsProperties | src/entity_class/health.rs:24-31 | Only creatures without health get the default, existing health is untouched, and a second insertion changes nothing. |
| HealthClass.DrainSums | src/entity_class/health.rs:33-39 | Each entity with health loses the sum of the damage aimed at it, with no floor and no cap. `max` and the set of entities with health never change. |
| HealthClass.DrainIgnoresMissing | src/entity_class/health.rs:35 | Events aimed at entities without health change nothing. |
| HealthClass.TwoHitsKill | src/entity_class/health.rs:33-47 | Two hits of 60 in one tick are summed to -20 before the sweep, which removes the creature. |
| HealthClass.OneHitSurvives | src/entity_class/health.rs:33-47 | One hit of 30 leaves 70, and the sweep keeps the creature. |
| HealthClass.Creatures.InsertHealthToCreatures | src/entity_class/health.rs:24-31 | Health becomes `WithDefaults` of the old health, and the inserted entities count as changed. |
| HealthClass.Creatures.OnDamageDrainHealth | src/entity_class/health.rs:33-39 | Health becomes `Drain` of the old health over the events in order. The targets that have health count as changed. |
| HealthClass.Creatures.DespawnIfZeroHealth | src/entity_class/health.rs:41-47 | Removes exactly the entities whose health changed and is at most 0, and nothing with positive health. |
| ProjectileClass.DefaultProjectile | src/entity_class/projectile.rs:36-43 | The default projectile deals 10 damage and is 30 by 30. |
| ProjectileClass.IsCreature | src/entity_class/projectile.rs:99-106 | A body is a creature exactly when its groups meet {Player, Enemy}. |
| ProjectileClass.IsProjectile | src/entity_class/projectile.rs:108-115 | A body is a projectile exactly when its groups contain Projectile. |
| ProjectileClass.IsWorld | src/entity_class/projectile.rs:117-124 | A body is part of the world exactly when its groups contain World. |
| ProjectileClass.LayerTestsIgnoreMasks | src/entity_class/projectile.rs:99-124 | The creature, projectile and world tests read a body's groups only; changing its masks changes none of them. |
| ProjectileClass.CreatureHit | src/entity_class/projectile.rs:55-115 | A pair is creature–projectile in either order, the first orientation taking precedence. A creature is in the Player or Enemy group, a projectile in the Projectile group. Any other pair has no hit. |
| ProjectileClass.WorldHit | src/entity_class/projectile.rs:82-124 | A pair is world–projectile in either order, the first orientation taking precedence. Any other pair has no hit. |
| ProjectileClass.DamageOf | src/entity_class/projectile.rs:52-75 | An event sends damage if and only if it is started, is a creature–projectile pair, and the projectile entity has the component. It then sends exactly one event for the creature with that projectile's damage. |
| ProjectileClass.StruckProjectile | src/entity_class/projectile.rs:67-74 | A projectile is despawned by a hit exactly when the hit sends damage. |
| ProjectileClass.WallProjectile | src/entity_class/projectile.rs:78-97 | A projectile is despawned by the world exactly for started world–projectile pairs. |
| ProjectileClass.DamageEvents | src/entity_class/projectile.rs:52-75 | There are no more damage events than collisions, and each comes from one of the collisions. |
| ProjectileClass.DamageEventsComplete | src/entity_class/projectile.rs:52-75 | Every damaging collision's event is sent. |
| ProjectileClass.DamageEventsSound | src/entity_class/projectile.rs:52-75 | Every damage event targets the creature of a started collision and carries the damage of an existing projectile that hit it. |
| ProjectileClass.NoDamageWithoutHits | src/entity_class/projectile.rs:54-65 | Ended collisions and pairs matching neither orientation send no damage and despawn nothing. |
| ProjectileClass.WallHitOnlyDespawns | src/entity_class/projectile.rs:78-97 | A world–projectile collision, in either order, despawns the projectile and deals no damage. |
| ProjectileClass.EnemyStruck | src/entity_class/projectile.rs:46-76 | An enemy struck by a projectile in either order takes that projectile's damage and the projectile goes. An ended collision does nothing. |
| ProjectileClass.OnCollideApplyDamage | src/entity_class/projectile.rs:46-76 | The damage sent is `DamageEvents` and the projectiles despawned are `StruckProjectiles`, all of them entities with the component. |
| ProjectileClass.OnCollideDespawn | src/entity_class/projectile.rs:78-97 | The projectiles despawned are exactly those of started world–projectile collisions. |
| EnemyClass.SpawnEnemy | src/entity_class/enemy.rs:29-42 | A new enemy is Idle with move_mod -1, and its start location is the spawn x and y with z = 100. |
| EnemyClass.NextState | src/entity_class/enemy.rs:65-81 | Idle becomes Patrol if and only if the draw is 0, and Patrol becomes Idle if and only if the draw is 0. Attack is never entered nor left. |
| EnemyClass.OneDrawChanges | src/entity_class/enemy.rs:68-75 | Exactly one draw out of [0, 33) changes Idle, and exactly one out of [0, 66) changes Patrol. |
| EnemyClass.PatrolMoveMod | src/entity_class/enemy.rs:96-100 | move_mod is 1 below start.y - 200 and -1 at or above start.y, and unchanged in between. It stays -1 or 1. |
| EnemyClass.MoveStep | src/entity_class/enemy.rs:94-106 | Only a patrolling enemy updates move_mod. State and start location are untouched. |
| EnemyClass.StatePassProperties | src/entity_class/enemy.rs:60-82 | The state pass changes only states, keeps Attack exactly where it was, and keeps every move_mod -1 or 1. |
| EnemyClass.MovePassProperties | src/entity_class/enemy.rs:84-106 | The move pass leaves non-patrolling enemies untouched and keeps every move_mod -1 or 1. |
| EnemyClass.PatrolCycle | src/entity_class/enemy.rs:96-100 | A patrol heads down from the start, turns up more than 200 below it, and turns down again at the start. |
| EnemyClass.Enemies.RandUpdateEnemyState | src/entity_class/enemy.rs:60-82 | The enemy table becomes `StatePass` under the given draws, and move_mod stays -1 or 1. |
| EnemyClass.Enemies.MoveDown | src/entity_class/enemy.rs:84-100 | Enemies with a transform and a velocity take a `MoveStep`, and move_mod stays -1 or 1. |
| MovementClass.SpriteIndex | src/entity_class/movement.rs:21-28 | Each facing has a sprite index in [0, 4). |
| MovementClass.SpriteIndexBijective | src/entity_class/movement.rs:21-28 | Up→3, Down→0, Left→2, Right→1 is injective and onto [0, 4), with `DirectionOfSprite` as its inverse. |
| MovementClass.PrimaryDirection | src/entity_class/movement.rs:39-63 | When \|x\| > \|y\| the facing is Right if x > 0, else Left. When \|y\| > \|x\| it is Up if y > 0, else Down. Equal non-zero magnitudes keep the previous facing. Zero x and y give Down when z ≠ 0 and keep the previous facing when the velocity is zero. |
| MovementClass.ScaleInvariant | src/entity_class/movement.rs:40-62 | Scaling the velocity by any positive factor keeps the facing, so the raw components decide as the normalised ones do. |
| MovementClass.PrimaryDirectionStable | src/entity_class/movement.rs:43-63 | Re-reading the same velocity keeps the facing just chosen. |
| MovementClass.DirectionPassProperties | src/entity_class/movement.rs:65-67 | A facing counts as changed exactly when it takes a new value, and a second pass over the same velocities changes nothing. |
| MovementClass.TurnedCreaturesShowFacing | src/entity_class/movement.rs:14-32 | After both passes every creature that turned shows its new facing's sprite. |
| MovementClass.Facing.UpdateLastDirection | src/entity_class/movement.rs:35-69 | Facings become `DirectionPass` of the changed velocities. Only the entities that turned count as changed. |
| MovementClass.Facing.AnimateCreature | src/entity_class/movement.rs:15-33 | Sprites become `SpritePass`: only creatures whose facing changed show their facing's index. |

## Left out

- Bevy and heron mechanics are represented, not modelled:
  - system scheduling and parallelism;
  - the deferred application of `Commands`;
  - change ticks;
  - physics simulation.
- Velocity, friction, zeroing and clamping in `move_down` (src/entity_class/enemy.rs:88-126) are float physics and are not modelled. The clamp's result is discarded, so it is a no-op.
- `EnemyClass.Enemies.MoveDown`: only the `move_mod` update is modelled. The `move_speed * move_mod` velocity change is float physics.
- `find_nearest_patrol_path` (src/entity_class/enemy.rs:130-136) and `setup_gold` (src/entity_class/gold.rs:36-53) have empty loop bodies, so there is nothing to model.
- `cast_projectile` is not part of this model: it uses window, mouse and camera input, a float velocity, and a random lifetime.
- `spawn_player`, player movement and the camera (src/entity_class/player.rs) are not part of this model. A spawn is recorded as a `SpawnCommand`. For enemies, `EnemyClass.SpawnEnemy` gives the enemy component they get.
- The enemy's sprite, velocity, rigid body and collision shape at spawn are not modelled.
- `lifetime.rs`, `main.rs` and `ui.rs` are not part of this model: timers on wall-clock time, app wiring and UI.
- Asset loading is not modelled:
  - texture atlases;
  - entity colour materials, including the `color[1..]` slice and hex parsing;
  - sprite indices of spawned tiles and entities;
  - entity scale and `GlobalTransform`.
- A spawn records only whether the entity instance had a tile.
- The LDtk document parser (`ldtk_rust`) is not part of this model. The project is taken as an already-parsed record.
- Pixel coordinates are taken as pairs; the source indexes `px[0]` and `px[1]` of a vector.
- `HealthClass.Creatures.OnDamageDrainHealth`: health is an unbounded integer. The i32 subtraction `value -= damage` can overflow: it panics in debug builds and wraps in release builds. Neither is modelled.
- `MapUtils.ConvertToWorld`: the i32-to-f32 conversion is exact here, though f32 rounds integers above 2^24. The negation `-y` at i32::MIN overflows in the source, which is not modelled.
- `LevelMap.LayerDepth` takes the layer index as an unbounded integer. The `usize as i32` cast of the index is not modelled; it matters only beyond 2^31 layers.
- `MovementClass.PrimaryDirection` works on raw components, not on the normalised vector. For a zero velocity it assumes that `normalize` yields NaN components, which match no arm, so the previous facing stays. Float underflow of tiny velocities is not modelled, nor is f32 overflow in `normalize` when a component is so large that the vector's length overflows to infinity.
- `ProjectileClass.OnCollideApplyDamage` and `ProjectileClass.OnCollideDespawn` return the despawned projectiles as a set, so a projectile despawned twice appears once.
- Logging (`info!`, `warn!`, `error!`) is not modelled.

### Behaviour of the code worth knowing (the model reproduces it)

- Parse failures are all `InvalidParse`, whether a field is missing, null or of the wrong kind. A number that is not an i64 in "Count", "Value" or "tileId" panics instead of failing.
- `PatrolPath` carries no data and reads no fields.
- `Gold::parse` exists, but the indexer dispatches only "Start_Location" and "Door". "Gold" and "Patrol_Path" entities get the marker only.
- The enemy has only the states Idle, Patrol and Attack. Idle moves straight to Patrol on the draw 0.
- An unknown "Character" is a parse error: the entity is marked and gets no spawn point.
- A negative "Count" is not rejected; such a spawn point never spawns (`StartLocationClass.FreshRun`).
- Each tile's `MapTile.size` is the whole layer's pixel size, which already includes the scale, multiplied by the scale again (src/map/mod.rs:185-186 and 215). Each wall tile's cuboid, centred on the tile, therefore measures cWid·gridSize·scale² by cHei·gridSize·scale² world units rather than one grid cell, while the tiles themselves sit at unscaled pixel positions. `LevelMap.TileLayerSpawns` states this size.
- The plugin registers only `index_entities` and `spawn_from_spawn_location`. The health, projectile, enemy and facing systems are modelled each on its own, with no order between them assumed.
