/**
 * Map ingestion: the tileset custom data read at start-up, and the one-time
 * pass that turns the current level's layers into tiles and unclassified map
 * entities. The level document arrives already parsed.
 */
module LevelMap {
  import opened Wrappers
  import opened Numeric
  import opened Engine
  import opened Json
  import opened Tags
  import opened MapUtils

  // ---------------------------------------------------------------------
  // The parsed level document

  /** A tileset definition: its id and its custom data, one field map per entry. */
  datatype TilesetDef = TilesetDef(uid: int, customData: seq<map<string, Option<Value>>>)

  /** A placed tile: pixel position and tile id within the layer's tileset. */
  datatype TileInstance = TileInstance(px: (int, int), t: int)

  /** One custom field of a placed entity. */
  datatype FieldInstance = FieldInstance(identifier: string, value: Option<Value>)

  /** The tile an entity is drawn with. */
  datatype EntityTile = EntityTile(tilesetUid: int)

  /** A placed entity: its type name, pixel position, custom fields and optional tile. */
  datatype EntityInstance = EntityInstance(identifier: string, px: (int, int), fieldInstances: seq<FieldInstance>, tile: Option<EntityTile>)

  datatype LayerInstance = LayerInstance(
    identifier: string,
    layerType: string,
    tilesetDefUid: Option<int>,
    cWid: int,
    cHei: int,
    gridSize: int,
    gridTiles: seq<TileInstance>,
    entityInstances: seq<EntityInstance>)

  datatype Level = Level(layerInstances: Option<seq<LayerInstance>>)

  datatype Project = Project(tilesets: seq<TilesetDef>, levels: seq<Level>)

  // ---------------------------------------------------------------------
  // Components and resources the map produces

  /** An entity of the level not yet classified: its type name and its field bag. */
  datatype MapEntity = MapEntity(name: string, fields: FieldBag)

  /** A tile's collision-relevant data. */
  datatype MapTile = MapTile(size: Vec2, depth: real, worldType: WorldType)

  /**
   * What start-up loaded: the ids (as i32) of the tilesets with a sprite
   * sheet, and each tileset's custom data, tile id to string.
   */
  datatype MapAssets = MapAssets(spriteSheets: set<int>, tilemapCustomData: map<int, map<int, string>>)

  /** An entity the map pass spawns. */
  datatype Spawn =
    | TileSpawn(translation: Vec3, scale: real, tile: MapTile)
    | EntitySpawn(entity: MapEntity, translation: Vec3, withSprite: bool)

  // ---------------------------------------------------------------------
  // Start-up: tileset custom data

  const TILE_ID_KEY: string := "tileId"
  const DATA_KEY: string := "data"

  /**
   * One custom-data entry as (tile id, data). `None` when reading it panics:
   * a missing or null key, a tile id that is not an i64 number, or data that
   * is not a string.
   */
  function CustomDataEntry(entry: map<string, Option<Value>>): (r: Option<(int, string)>)
    ensures r.Some? <==>
              && TILE_ID_KEY in entry && entry[TILE_ID_KEY].Some? && entry[TILE_ID_KEY].value.Num?
              && AsI64(entry[TILE_ID_KEY].value.n).Some?
              && DATA_KEY in entry && entry[DATA_KEY].Some? && entry[DATA_KEY].value.Str?
    ensures r.Some? ==> entry[TILE_ID_KEY] == Some(Num(Int(r.value.0))) && entry[DATA_KEY] == Some(Str(r.value.1))
  {
    if TILE_ID_KEY !in entry || entry[TILE_ID_KEY].None? || DATA_KEY !in entry || entry[DATA_KEY].None? then None
    else match (entry[TILE_ID_KEY].value, entry[DATA_KEY].value)
      case (Num(n), Str(s)) => if AsI64(n).Some? then Some((AsI64(n).value, s)) else None
      case _ => None
  }

  /** A tileset's custom data, later entries overwriting earlier ones; `None` when any entry panics. */
  function CustomDataOf(entries: seq<map<string, Option<Value>>>): Option<map<int, string>> {
    if |entries| == 0 then Some(map[])
    else
      match CustomDataOf(entries[..|entries| - 1])
      case None => None
      case Some(m) =>
        match CustomDataEntry(entries[|entries| - 1])
        case None => None
        case Some(kv) => Some(m[kv.0 := kv.1])
  }

  /**
   * Reading custom data panics exactly when some entry does; otherwise the
   * map holds exactly the entries' tile ids, each with the data of its last
   * entry.
   */
  lemma {:induction false} CustomDataLastWins(entries: seq<map<string, Option<Value>>>)
    ensures CustomDataOf(entries).None? <==> exists i :: 0 <= i < |entries| && CustomDataEntry(entries[i]).None?
    ensures CustomDataOf(entries).Some? ==>
              forall k :: k in CustomDataOf(entries).value <==>
                exists i :: 0 <= i < |entries| && CustomDataEntry(entries[i]).value.0 == k
    ensures CustomDataOf(entries).Some? ==>
              forall i :: 0 <= i < |entries| && (forall j :: i < j < |entries| ==> CustomDataEntry(entries[j]).value.0 != CustomDataEntry(entries[i]).value.0)
                ==> CustomDataOf(entries).value[CustomDataEntry(entries[i]).value.0] == CustomDataEntry(entries[i]).value.1
  {
    if |entries| > 0 {
      var init := entries[..|entries| - 1];
      CustomDataLastWins(init);
      assert forall i :: 0 <= i < |init| ==> init[i] == entries[i];
    }
  }

  /** The custom-data loop of `init_map` for one tileset; `None` when it panics. */
  method BuildCustomData(entries: seq<map<string, Option<Value>>>) returns (dataMap: Option<map<int, string>>)
    ensures dataMap == CustomDataOf(entries)
  {
    var m: map<int, string> := map[];
    var i := 0;
    while i < |entries|
      invariant 0 <= i <= |entries|
      invariant CustomDataOf(entries[..i]) == Some(m)
    {
      assert entries[..i + 1][..i] == entries[..i];
      var entry := CustomDataEntry(entries[i]);
      if entry.None? {
        assert CustomDataOf(entries[..i + 1]).None?;
        PanicPersists(entries, i + 1);
        return None;
      }
      m := m[entry.value.0 := entry.value.1];
      i := i + 1;
    }
    assert entries[..i] == entries;
    dataMap := Some(m);
  }

  /** Once a prefix of the entries panics, so does the whole. */
  lemma {:induction false} PanicPersists(entries: seq<map<string, Option<Value>>>, n: nat)
    requires n <= |entries|
    requires CustomDataOf(entries[..n]).None?
    ensures CustomDataOf(entries).None?
    decreases |entries| - n
  {
    if n < |entries| {
      assert entries[..n + 1][..n] == entries[..n];
      PanicPersists(entries, n + 1);
    } else {
      assert entries[..n] == entries;
    }
  }

  /** The assets `init_map` loads from the tilesets, keyed by `uid as i32`; `None` when any panics. */
  function TilesetAssets(tilesets: seq<TilesetDef>): Option<MapAssets> {
    if |tilesets| == 0 then Some(MapAssets({}, map[]))
    else
      match TilesetAssets(tilesets[..|tilesets| - 1])
      case None => None
      case Some(a) =>
        var ts := tilesets[|tilesets| - 1];
        match CustomDataOf(ts.customData)
        case None => None
        case Some(data) =>
          Some(MapAssets(a.spriteSheets + {AsI32(ts.uid)}, a.tilemapCustomData[AsI32(ts.uid) := data]))
  }

  /** Every tileset of a successful load has a sprite sheet and its custom data under its id. */
  lemma {:induction false} TilesetAssetsCover(tilesets: seq<TilesetDef>)
    requires TilesetAssets(tilesets).Some?
    ensures TilesetAssets(tilesets).value.spriteSheets == set t | t in tilesets :: AsI32(t.uid)
    ensures TilesetAssets(tilesets).value.tilemapCustomData.Keys == TilesetAssets(tilesets).value.spriteSheets
  {
    if |tilesets| > 0 {
      var init := tilesets[..|tilesets| - 1];
      TilesetAssetsCover(init);
      assert tilesets == init + [tilesets[|tilesets| - 1]];
    }
  }

  /** The tileset loop of `init_map`. */
  method LoadTilesets(tilesets: seq<TilesetDef>) returns (assets: Option<MapAssets>)
    ensures assets == TilesetAssets(tilesets)
  {
    var sheets: set<int> := {};
    var custom: map<int, map<int, string>> := map[];
    var i := 0;
    while i < |tilesets|
      invariant 0 <= i <= |tilesets|
      invariant TilesetAssets(tilesets[..i]) == Some(MapAssets(sheets, custom))
    {
      assert tilesets[..i + 1][..i] == tilesets[..i];
      var dataMap := BuildCustomData(tilesets[i].customData);
      if dataMap.None? {
        assert TilesetAssets(tilesets[..i + 1]).None?;
        TilesetPanicPersists(tilesets, i + 1);
        return None;
      }
      var id := AsI32(tilesets[i].uid);
      custom := custom[id := dataMap.value];
      sheets := sheets + {id};
      i := i + 1;
    }
    assert tilesets[..i] == tilesets;
    assets := Some(MapAssets(sheets, custom));
  }

  lemma {:induction false} TilesetPanicPersists(tilesets: seq<TilesetDef>, n: nat)
    requires n <= |tilesets|
    requires TilesetAssets(tilesets[..n]).None?
    ensures TilesetAssets(tilesets).None?
    decreases |tilesets| - n
  {
    if n < |tilesets| {
      assert tilesets[..n + 1][..n] == tilesets[..n];
      TilesetPanicPersists(tilesets, n + 1);
    } else {
      assert tilesets[..n] == tilesets;
    }
  }

  // ---------------------------------------------------------------------
  // The map pass

  /** The depth of layer `z`: 50 for the first layer, two less for each layer after it. */
  function LayerDepth(z: nat): (r: int)
    ensures r % 2 == 0 && r <= 50
    ensures LayerDepth(0) == 50
    ensures r >= 0 <==> z <= 25
  {
    (25 - z) * 2
  }

  /** Later layers sit strictly lower, two units per layer. */
  lemma DepthDecreasing(i: nat, j: nat)
    requires i < j
    ensures LayerDepth(i) > LayerDepth(j)
    ensures LayerDepth(i) - LayerDepth(j) == 2 * (j - i)
  {
  }

  /** The field bag of an entity: one entry per field identifier, a later duplicate overwriting an earlier one. */
  function FieldBagOf(fs: seq<FieldInstance>): FieldBag {
    if |fs| == 0 then map[]
    else FieldBagOf(fs[..|fs| - 1])[fs[|fs| - 1].identifier := fs[|fs| - 1].value]
  }

  /** The bag holds exactly the identifiers of the fields. */
  lemma {:induction false} FieldBagKeys(fs: seq<FieldInstance>)
    ensures forall k :: k in FieldBagOf(fs) <==> exists i :: 0 <= i < |fs| && fs[i].identifier == k
  {
    if |fs| > 0 {
      var init := fs[..|fs| - 1];
      FieldBagKeys(init);
      forall k | k in FieldBagOf(fs)
        ensures exists i :: 0 <= i < |fs| && fs[i].identifier == k
      {
        if k != fs[|fs| - 1].identifier {
          assert k in FieldBagOf(init);
          var i :| 0 <= i < |init| && init[i].identifier == k;
          assert fs[i] == init[i];
        }
      }
      forall k | exists i :: 0 <= i < |fs| && fs[i].identifier == k
        ensures k in FieldBagOf(fs)
      {
        var i :| 0 <= i < |fs| && fs[i].identifier == k;
        if i < |init| {
          assert init[i] == fs[i];
        }
      }
    }
  }

  /** Each identifier holds the value of its last occurrence: a later duplicate overwrites an earlier one. */
  lemma {:induction false} FieldBagLastWins(fs: seq<FieldInstance>, i: nat)
    requires i < |fs|
    requires forall j :: i < j < |fs| ==> fs[j].identifier != fs[i].identifier
    ensures fs[i].identifier in FieldBagOf(fs)
    ensures FieldBagOf(fs)[fs[i].identifier] == fs[i].value
  {
    if i < |fs| - 1 {
      var init := fs[..|fs| - 1];
      assert init[i] == fs[i];
      FieldBagLastWins(init, i);
    }
  }

  /** The field loop of `update_map`. */
  method BuildFields(fs: seq<FieldInstance>) returns (fields: FieldBag)
    ensures fields == FieldBagOf(fs)
  {
    fields := map[];
    var i := 0;
    while i < |fs|
      invariant 0 <= i <= |fs|
      invariant fields == FieldBagOf(fs[..i])
    {
      assert fs[..i + 1][..i] == fs[..i];
      fields := fields[fs[i].identifier := fs[i].value];
      i := i + 1;
    }
    assert fs[..i] == fs;
  }

  /**
   * The world type of tile `t` in tileset `tilesetUid`: its custom data read
   * by `world_type_from_str`, with missing data read as the empty string and
   * anything unreadable as `Air`.
   */
  function TileWorldType(assets: MapAssets, tilesetUid: int, t: int): (r: WorldType)
    ensures r == Wall || r == Air
  {
    var data := if tilesetUid in assets.tilemapCustomData then assets.tilemapCustomData[tilesetUid] else map[];
    WorldTypeFromStr(if t in data then data[t] else "").GetOr(Air)
  }

  /** A tile is a wall exactly when its custom data says "Wall"; every other tile is air. */
  lemma TileWorldTypeCases(assets: MapAssets, tilesetUid: int, t: int)
    ensures TileWorldType(assets, tilesetUid, t) == Wall <==>
              tilesetUid in assets.tilemapCustomData && t in assets.tilemapCustomData[tilesetUid]
              && assets.tilemapCustomData[tilesetUid][t] == "Wall"
    ensures TileWorldType(assets, tilesetUid, t) != Wall ==> TileWorldType(assets, tilesetUid, t) == Air
  {
  }

  /** The tileset a layer draws from, as an i32, -1 when it has none. */
  function LayerTilesetUid(layer: LayerInstance): int {
    AsI32(layer.tilesetDefUid.GetOr(-1))
  }

  /** The layer's size in pixels, scaled. */
  function LayerPxWidth(layer: LayerInstance, scale: real): real {
    layer.cWid as real * (layer.gridSize as real * scale)
  }

  function LayerPxHeight(layer: LayerInstance, scale: real): real {
    layer.cHei as real * (layer.gridSize as real * scale)
  }

  /** Where something placed at pixel `px` on layer `z` lands in the world. */
  function Placement(layer: LayerInstance, z: nat, scale: real, px: (int, int)): (r: Vec3)
    ensures r == Vec3(AsI32(px.0) as real, -(AsI32(px.1) as real), LayerDepth(z) as real)
  {
    ConvertToWorld(LayerPxWidth(layer, scale), LayerPxHeight(layer, scale), AsI32(layer.gridSize), scale,
                   AsI32(px.0), AsI32(px.1), LayerDepth(z))
  }

  function TileSpawnOf(assets: MapAssets, layer: LayerInstance, z: nat, scale: real, tile: TileInstance): Spawn {
    TileSpawn(
      Placement(layer, z, scale, tile.px),
      scale,
      MapTile(Vec2(LayerPxWidth(layer, scale) * scale, LayerPxHeight(layer, scale) * scale),
              LayerDepth(z) as real,
              TileWorldType(assets, LayerTilesetUid(layer), tile.t)))
  }

  function EntitySpawnOf(layer: LayerInstance, z: nat, scale: real, entity: EntityInstance): Spawn {
    EntitySpawn(MapEntity(entity.identifier, FieldBagOf(entity.fieldInstances)),
                Placement(layer, z, scale, entity.px),
                entity.tile.Some?)
  }

  /** Whether spawning `entity` panics: it is drawn from a tileset that has no sprite sheet. */
  predicate EntityPanics(assets: MapAssets, entity: EntityInstance) {
    entity.tile.Some? && AsI32(entity.tile.value.tilesetUid) !in assets.spriteSheets
  }

  /**
   * What layer `z` spawns: one tile per grid tile of a "Tiles" layer, one map
   * entity per entity instance of an "Entities" layer, nothing for any other
   * layer type. `None` when a sprite-sheet lookup panics.
   */
  function LayerSpawns(assets: MapAssets, layer: LayerInstance, z: nat, scale: real): (r: Option<seq<Spawn>>)
    ensures r.None? <==>
              || (layer.layerType == "Tiles" && |layer.gridTiles| > 0 && LayerTilesetUid(layer) !in assets.spriteSheets)
              || (layer.layerType == "Entities"
                  && exists i :: 0 <= i < |layer.entityInstances| && EntityPanics(assets, layer.entityInstances[i]))
    ensures r.Some? ==> |r.value| == (if layer.layerType == "Tiles" then |layer.gridTiles|
                                     else if layer.layerType == "Entities" then |layer.entityInstances|
                                     else 0)
  {
    if layer.layerType == "Tiles" then
      if |layer.gridTiles| > 0 && LayerTilesetUid(layer) !in assets.spriteSheets then None
      else Some(seq(|layer.gridTiles|, i requires 0 <= i < |layer.gridTiles| => TileSpawnOf(assets, layer, z, scale, layer.gridTiles[i])))
    else if layer.layerType == "Entities" then
      if exists i :: 0 <= i < |layer.entityInstances| && EntityPanics(assets, layer.entityInstances[i]) then None
      else Some(seq(|layer.entityInstances|, i requires 0 <= i < |layer.entityInstances| => EntitySpawnOf(layer, z, scale, layer.entityInstances[i])))
    else Some([])
  }

  /** Layer types other than "Tiles" and "Entities" spawn nothing. */
  lemma OtherLayersSpawnNothing(assets: MapAssets, layer: LayerInstance, z: nat, scale: real)
    requires layer.layerType != "Tiles" && layer.layerType != "Entities"
    ensures LayerSpawns(assets, layer, z, scale) == Some([])
  {
  }

  /**
   * An "Entities" layer spawns one map entity per instance, in order, named
   * by the instance's identifier whether or not it has a tile, with the
   * instance's field bag, at its pixel position with y flipped and the
   * layer's depth as z.
   */
  lemma EntityLayerSpawns(assets: MapAssets, layer: LayerInstance, z: nat, scale: real)
    requires layer.layerType == "Entities"
    requires LayerSpawns(assets, layer, z, scale).Some?
    ensures |LayerSpawns(assets, layer, z, scale).value| == |layer.entityInstances|
    ensures forall i :: 0 <= i < |layer.entityInstances| ==>
              var s := LayerSpawns(assets, layer, z, scale).value[i];
              && s.EntitySpawn?
              && s.entity.name == layer.entityInstances[i].identifier
              && s.entity.fields == FieldBagOf(layer.entityInstances[i].fieldInstances)
              && s.translation == Vec3(AsI32(layer.entityInstances[i].px.0) as real,
                                       -(AsI32(layer.entityInstances[i].px.1) as real),
                                       LayerDepth(z) as real)
  {
  }

  /**
   * A "Tiles" layer spawns one tile per grid tile, in order, at its pixel
   * position with y flipped and the layer's depth as z, with the world type
   * its tileset's custom data gives it.
   */
  lemma TileLayerSpawns(assets: MapAssets, layer: LayerInstance, z: nat, scale: real)
    requires layer.layerType == "Tiles"
    requires LayerSpawns(assets, layer, z, scale).Some?
    ensures |LayerSpawns(assets, layer, z, scale).value| == |layer.gridTiles|
    ensures forall i :: 0 <= i < |layer.gridTiles| ==>
              var s := LayerSpawns(assets, layer, z, scale).value[i];
              && s.TileSpawn?
              && s.tile.worldType == TileWorldType(assets, LayerTilesetUid(layer), layer.gridTiles[i].t)
              && s.tile.depth == LayerDepth(z) as real
              && s.tile.size == Vec2(layer.cWid as real * layer.gridSize as real * scale * scale,
                                     layer.cHei as real * layer.gridSize as real * scale * scale)
              && s.translation == Vec3(AsI32(layer.gridTiles[i].px.0) as real,
                                       -(AsI32(layer.gridTiles[i].px.1) as real),
                                       LayerDepth(z) as real)
  {
  }

  /** One layer of `update_map`. */
  method SpawnLayer(assets: MapAssets, layer: LayerInstance, z: nat, scale: real) returns (spawns: Option<seq<Spawn>>)
    ensures spawns == LayerSpawns(assets, layer, z, scale)
  {
    var tilesetUid := LayerTilesetUid(layer);
    if layer.layerType == "Tiles" {
      var out: seq<Spawn> := [];
      var i := 0;
      while i < |layer.gridTiles|
        invariant 0 <= i <= |layer.gridTiles|
        invariant i > 0 ==> tilesetUid in assets.spriteSheets
        invariant |out| == i
        invariant forall j :: 0 <= j < i ==> out[j] == TileSpawnOf(assets, layer, z, scale, layer.gridTiles[j])
      {
        if tilesetUid !in assets.spriteSheets {
          return None;
        }
        out := out + [TileSpawnOf(assets, layer, z, scale, layer.gridTiles[i])];
        i := i + 1;
      }
      assert out == seq(|layer.gridTiles|, j requires 0 <= j < |layer.gridTiles| => TileSpawnOf(assets, layer, z, scale, layer.gridTiles[j]));
      spawns := Some(out);
    } else if layer.layerType == "Entities" {
      var out: seq<Spawn> := [];
      var i := 0;
      while i < |layer.entityInstances|
        invariant 0 <= i <= |layer.entityInstances|
        invariant forall j :: 0 <= j < i ==> !EntityPanics(assets, layer.entityInstances[j])
        invariant |out| == i
        invariant forall j :: 0 <= j < i ==> out[j] == EntitySpawnOf(layer, z, scale, layer.entityInstances[j])
      {
        var entity := layer.entityInstances[i];
        var fields := BuildFields(entity.fieldInstances);
        var translation := Placement(layer, z, scale, entity.px);
        if entity.tile.Some? && AsI32(entity.tile.value.tilesetUid) !in assets.spriteSheets {
          return None;
        }
        out := out + [EntitySpawn(MapEntity(entity.identifier, fields), translation, entity.tile.Some?)];
        i := i + 1;
      }
      assert out == seq(|layer.entityInstances|, j requires 0 <= j < |layer.entityInstances| => EntitySpawnOf(layer, z, scale, layer.entityInstances[j]));
      spawns := Some(out);
    } else {
      spawns := Some([]);
    }
  }

  /** What layers `k` and above spawn, walked from the last layer down to layer `k`. */
  function SpawnsFrom(assets: MapAssets, layers: seq<LayerInstance>, k: nat, scale: real): Option<seq<Spawn>>
    decreases |layers| - k
  {
    if k >= |layers| then Some([])
    else
      match SpawnsFrom(assets, layers, k + 1, scale)
      case None => None
      case Some(later) =>
        match LayerSpawns(assets, layers[k], k, scale)
        case None => None
        case Some(here) => Some(later + here)
  }

  /** What a load of the current level spawns; `None` when it panics, a missing level or layer list included. */
  function LevelSpawns(project: Project, currentLevel: nat, assets: MapAssets, scale: real): Option<seq<Spawn>> {
    if currentLevel >= |project.levels| || project.levels[currentLevel].layerInstances.None? then None
    else SpawnsFrom(assets, project.levels[currentLevel].layerInstances.value, 0, scale)
  }

  /** The map resource: the level document, the level to show and whether it still has to be loaded. */
  class Map {
    var ldtkMap: Project
    var currentLevel: nat
    var reload: bool

    /** The map as `init_map` creates it: level 0, waiting to be loaded. */
    constructor (project: Project)
      ensures ldtkMap == project && currentLevel == 0 && reload
    {
      ldtkMap := project;
      currentLevel := 0;
      reload := true;
    }

    /**
     * `update_map`: when `reload` is set, spawn the current level's layers
     * from the last to the first and clear `reload`; otherwise do nothing.
     * A panic leaves the flag as it was and commits no spawn.
     */
    method UpdateMap(assets: MapAssets, scale: real) returns (spawns: seq<Spawn>, panicked: bool)
      modifies this`reload
      ensures !old(reload) ==> spawns == [] && !panicked && !reload
      ensures old(reload) ==> panicked == LevelSpawns(ldtkMap, currentLevel, assets, scale).None?
      ensures old(reload) && !panicked ==> spawns == LevelSpawns(ldtkMap, currentLevel, assets, scale).value && !reload
      ensures panicked ==> spawns == [] && reload == old(reload)
    {
      spawns, panicked := [], false;
      if !reload {
        return;
      }
      if currentLevel >= |ldtkMap.levels| || ldtkMap.levels[currentLevel].layerInstances.None? {
        panicked := true;
        return;
      }
      var layers := ldtkMap.levels[currentLevel].layerInstances.value;
      var acc: seq<Spawn> := [];
      var k := |layers|;
      while k > 0
        invariant 0 <= k <= |layers|
        invariant SpawnsFrom(assets, layers, k, scale) == Some(acc)
        invariant reload == old(reload)
      {
        k := k - 1;
        var here := SpawnLayer(assets, layers[k], k, scale);
        if here.None? {
          LayerPanicPersists(assets, layers, k, scale);
          panicked := true;
          return;
        }
        acc := acc + here.value;
      }
      spawns := acc;
      reload := false;
    }
  }

  /** A layer that panics makes the whole load panic. */
  lemma {:induction false} LayerPanicPersists(assets: MapAssets, layers: seq<LayerInstance>, k: nat, scale: real)
    requires k < |layers|
    requires LayerSpawns(assets, layers[k], k, scale).None?
    ensures SpawnsFrom(assets, layers, 0, scale).None?
    decreases k
  {
    if k > 0 {
      assert SpawnsFrom(assets, layers, k, scale).None?;
      SpawnsFromPanicPersists(assets, layers, k, scale);
    }
  }

  lemma {:induction false} SpawnsFromPanicPersists(assets: MapAssets, layers: seq<LayerInstance>, k: nat, scale: real)
    requires k <= |layers|
    requires SpawnsFrom(assets, layers, k, scale).None?
    ensures SpawnsFrom(assets, layers, 0, scale).None?
    decreases k
  {
    if k > 0 {
      SpawnsFromPanicPersists(assets, layers, k - 1, scale);
    }
  }

  /** `init_map`: the map resource waiting to load level 0, and the tileset assets (`None` on a panic). */
  method InitMap(project: Project) returns (m: Map, assets: Option<MapAssets>)
    ensures fresh(m) && m.ldtkMap == project && m.currentLevel == 0 && m.reload
    ensures assets == TilesetAssets(project.tilesets)
  {
    m := new Map(project);
    assets := LoadTilesets(project.tilesets);
  }

  /** The level loads once: after a load that did not panic, the next pass spawns nothing. */
  method LoadsOnce(m: Map, assets: MapAssets, scale: real) returns (first: seq<Spawn>, second: seq<Spawn>)
    requires m.reload
    requires LevelSpawns(m.ldtkMap, m.currentLevel, assets, scale).Some?
    modifies m`reload
    ensures first == LevelSpawns(m.ldtkMap, m.currentLevel, assets, scale).value
    ensures second == [] && !m.reload
  {
    var p1, p2;
    first, p1 := m.UpdateMap(assets, scale);
    second, p2 := m.UpdateMap(assets, scale);
  }
}
