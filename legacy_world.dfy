/** The older server's level-graph loader (src/world/server.rs, with the tables of
    src/world/resources.rs and the constants of src/world/mod.rs).

    `cache_world` turns the LDtk levels into one `Map` per level; `load_entities` then
    places the player spawn of each level and appends every portal to its level's map;
    `tst` attaches colliders to the scene meshes. Each system runs while the server is in
    its own state and asks for the next one when it is done. */
module LegacyWorld {
  import opened Common
  import opened LegacyCommon
  import Coordinates
  import opened Colliders

  /** The levels the server loads. */
  const LevelIids: seq<LevelIid> := [
    "a2a50ff0-66b0-11ec-9cd7-c721746049b9",
    "db9e9610-9f30-11ed-9161-49318aa2f89c",
    "be35e6d0-9f30-11ed-8926-a5994758ef9b",
    "e1b4c500-9f30-11ed-9664-17bc3cc5593d",
    "13d9d970-9f30-11ed-9664-93dee238568f",
    "1b5d30e0-9f30-11ed-9664-7734d384d77a"
  ]

  /** The LDtk grid size. */
  const GridSize: int := 8

  /** The older server's states (src/state/server.rs). */
  datatype ServerState = LoadWorld | LoadEntities | LoadWalls | LoadedWorld | Running

  /** A neighbour link of an LDtk level: a direction ("n", "s", "e", "w", ...) and a level. */
  datatype Neighbour = Neighbour(dir: string, levelIid: LevelIid)

  /** The parts of an LDtk level the loader reads. */
  datatype Level = Level(iid: LevelIid, worldX: int, worldY: int, pxWid: int, pxHei: int, neighbours: seq<Neighbour>)

  /** `[x1, x2, y1, y2]`. */
  datatype Bounds = Bounds(x1: int, x2: int, y1: int, y2: int)

  /** A portal of a map: where it is, where it leads, and its link id. */
  datatype PortalInfo = PortalInfo(bounds: Bounds, destination: LevelIid, link: int)

  /** One level's entry of the `World` resource. */
  datatype MapInfo = MapInfo(bounds: Bounds, neighbours: seq<Neighbour>, worldCoords: (int, int),
                             playerSpawn: Position, portals: seq<PortalInfo>)

  /** A `PlayerSpawn` entity: its translation and the level that is its parent. */
  datatype SpawnEntity = SpawnEntity(translation: (int, int), level: Level)

  /** A `Portal` entity: its fields and the level that is its parent. */
  datatype PortalEntity = PortalEntity(destination: LevelIid, ldtkCoords: (int, int), width: int, height: int,
                                       link: int, level: Level)

  /** Why loading aborts. */
  datatype LoadError =
    | MissingLevelAsset    // `ldtk_levels.get(..).unwrap()` on a level that is not loaded
    | TooManyNeighbours    // "Level {} has more than 4 neighbors"
    | LevelCountMismatch   // "LEVEL_IIDS is missing some levels from LDTK world!"
    | UnknownLevel         // `world.maps.get_mut(level iid).unwrap()`
    | MissingDestination   // "Portal destination={} in Level={} does not exist!"

  /** What a run of `cache_world` ends in. `Cached` inserts the world and requests
      `LoadEntities`. */
  datatype CacheOutcome = AssetPending | Cached(maps: map<LevelIid, MapInfo>) | CachePanic(error: LoadError)

  /** A level that can be cached: its asset is loaded and it has at most 4 neighbours. */
  predicate Cacheable(level: Option<Level>)
  {
    level.Some? && |level.value.neighbours| < 5
  }

  predicate AllCacheable(levels: map<LevelIid, Option<Level>>)
  {
    forall iid | iid in levels :: Cacheable(levels[iid])
  }

  /** The map cached for one level under the level entity's translation `t`. */
  function MapOf(t: (int, int), level: Level): MapInfo
  {
    var baseX := t.0 + level.worldX;
    var baseY := t.1 - level.worldY;
    MapInfo(Bounds(baseX, baseX + level.pxWid, baseY, baseY + level.pxHei), level.neighbours,
            (level.worldX, -level.worldY), Position(0, 0), [])
  }

  /** The whole cached table. */
  function CachedMaps(t: (int, int), levels: map<LevelIid, Option<Level>>): map<LevelIid, MapInfo>
    requires AllCacheable(levels)
  {
    map iid | iid in levels :: MapOf(t, levels[iid].value)
  }

  /** `cache_world`: `asset` is the LDtk project (None while it loads), mapping each level
      iid to its level asset (None when that asset is not loaded). */
  method CacheWorld(t: (int, int), asset: Option<map<LevelIid, Option<Level>>>) returns (r: CacheOutcome)
    ensures asset.None? <==> r == AssetPending
    ensures asset.Some? && !AllCacheable(asset.value) ==> r.CachePanic? && r.error in {MissingLevelAsset, TooManyNeighbours}
    ensures r == CachePanic(MissingLevelAsset) ==> exists iid | iid in asset.value :: asset.value[iid].None?
    ensures r == CachePanic(TooManyNeighbours) ==>
              exists iid | iid in asset.value :: asset.value[iid].Some? && |asset.value[iid].value.neighbours| > 4
    ensures asset.Some? && AllCacheable(asset.value) ==>
              r == if |asset.value| == |LevelIids| then Cached(CachedMaps(t, asset.value))
                   else CachePanic(LevelCountMismatch)
  {
    if asset.None? {
      return AssetPending;
    }
    var levels := asset.value;
    var maps: map<LevelIid, MapInfo> := map[];
    var seen: set<LevelIid> := {};
    while seen != levels.Keys
      invariant seen <= levels.Keys
      invariant forall iid | iid in seen :: Cacheable(levels[iid])
      invariant maps == map iid | iid in seen :: MapOf(t, levels[iid].value)
      decreases |levels.Keys - seen|
    {
      var iid :| iid in levels.Keys - seen;
      if levels[iid].None? {
        return CachePanic(MissingLevelAsset);
      }
      if |levels[iid].value.neighbours| >= 5 {
        return CachePanic(TooManyNeighbours);
      }
      maps := maps[iid := MapOf(t, levels[iid].value)];
      seen := seen + {iid};
    }
    assert maps.Keys == levels.Keys;
    if |LevelIids| != |maps.Keys| {
      return CachePanic(LevelCountMismatch);
    }
    return Cached(maps);
  }

  /** Each cached map spans `[bx, bx + px_wid, by, by + px_hei]` with `bx = tx + world_x`
      and `by = ty - world_y`, so its bounds are ordered for non-negative sizes; its world
      coordinates are `(world_x, -world_y)`; it has at most 4 neighbours and no portal yet. */
  lemma CachedMapGeometry(t: (int, int), levels: map<LevelIid, Option<Level>>, iid: LevelIid)
    requires AllCacheable(levels) && iid in levels
    ensures var m := CachedMaps(t, levels)[iid];
            var l := levels[iid].value;
            && m.bounds.x1 == t.0 + l.worldX && m.bounds.x2 - m.bounds.x1 == l.pxWid
            && m.bounds.y1 == t.1 - l.worldY && m.bounds.y2 - m.bounds.y1 == l.pxHei
            && (l.pxWid >= 0 ==> m.bounds.x1 <= m.bounds.x2)
            && (l.pxHei >= 0 ==> m.bounds.y1 <= m.bounds.y2)
            && m.worldCoords == (l.worldX, -l.worldY)
            && |m.neighbours| <= 4
            && m.portals == []
  {
  }

  /** The count check compares sizes only: six cacheable levels none of which is among
      `LevelIids` pass it. */
  lemma CountCheckIgnoresIids(level: Level)
    requires |level.neighbours| < 5
    ensures var levels := map["a" := Some(level), "b" := Some(level), "c" := Some(level),
                              "d" := Some(level), "e" := Some(level), "f" := Some(level)];
            && AllCacheable(levels)
            && |levels| == |LevelIids|
            && forall iid | iid in levels :: iid !in LevelIids
  {
    var levels := map["a" := Some(level), "b" := Some(level), "c" := Some(level),
                      "d" := Some(level), "e" := Some(level), "f" := Some(level)];
    var keys: set<LevelIid> := {"a"};
    assert |keys| == 1;
    AddFresh(keys, "b");
    keys := keys + {"b"};
    AddFresh(keys, "c");
    keys := keys + {"c"};
    AddFresh(keys, "d");
    keys := keys + {"d"};
    AddFresh(keys, "e");
    keys := keys + {"e"};
    AddFresh(keys, "f");
    keys := keys + {"f"};
    assert levels.Keys == keys;
    forall iid | iid in levels ensures iid !in LevelIids {
      LongLevelIids(iid);
    }
  }

  lemma AddFresh(keys: set<LevelIid>, iid: LevelIid)
    requires iid !in keys
    ensures |keys + {iid}| == |keys| + 1
  {
  }

  /** Every iid of `LevelIids` is 36 characters long. */
  lemma LongLevelIids(iid: LevelIid)
    requires |iid| != 36
    ensures iid !in LevelIids
  {
    forall k | 0 <= k < |LevelIids| ensures |LevelIids[k]| == 36 {
    }
  }

  /** The table built from level records: what `load_entities` fills in. */
  datatype Tables = Tables(maps: map<LevelIid, MapInfo>) | TablesPanic(error: LoadError)

  /** Where a `PlayerSpawn` lands: its translation shifted by `(world_x, -world_y)`. */
  function SpawnPosition(s: SpawnEntity): Position
  {
    Position(s.translation.0 + s.level.worldX, s.translation.1 - s.level.worldY)
  }

  function PlaceSpawn(maps: map<LevelIid, MapInfo>, s: SpawnEntity): Tables
  {
    if s.level.iid in maps then Tables(maps[s.level.iid := maps[s.level.iid].(playerSpawn := SpawnPosition(s))])
    else TablesPanic(UnknownLevel)
  }

  /** The spawn loop of `load_entities`, spawn by spawn. */
  function PlaceSpawns(maps: map<LevelIid, MapInfo>, spawns: seq<SpawnEntity>): Tables
  {
    if spawns == [] then Tables(maps)
    else
      match PlaceSpawns(maps, spawns[..|spawns| - 1])
      case TablesPanic(e) => TablesPanic(e)
      case Tables(m) => PlaceSpawn(m, spawns[|spawns| - 1])
  }

  /** A portal's `[x1, x2, y1, y2]`: its LDtk corner converted to map coordinates, shifted
      by `(world_x, -world_y)`, spanning its width to the right and its height downwards. */
  function PortalInfoOf(p: PortalEntity): (r: PortalInfo)
    ensures var c := Coordinates.LdtkToMapCoordinates(GridSize, p.ldtkCoords, p.level.pxHei);
            && r.bounds.x1 == c.0 + p.level.worldX && r.bounds.y2 == c.1 - p.level.worldY
            && r.bounds.x2 - r.bounds.x1 == p.width && r.bounds.y2 - r.bounds.y1 == p.height
    ensures r.destination == p.destination && r.link == p.link
  {
    var c := Coordinates.LdtkToMapCoordinates(GridSize, p.ldtkCoords, p.level.pxHei);
    var x := c.0 + p.level.worldX;
    var y := c.1 - p.level.worldY;
    PortalInfo(Bounds(x, x + p.width, y - p.height, y), p.destination, p.link)
  }

  function PlacePortal(maps: map<LevelIid, MapInfo>, p: PortalEntity): Tables
  {
    if p.destination !in maps then TablesPanic(MissingDestination)
    else if p.level.iid !in maps then TablesPanic(UnknownLevel)
    else
      var m := maps[p.level.iid];
      Tables(maps[p.level.iid := m.(portals := m.portals + [PortalInfoOf(p)])])
  }

  /** The portal loop of `load_entities`, portal by portal. */
  function PlacePortals(maps: map<LevelIid, MapInfo>, portals: seq<PortalEntity>): Tables
  {
    if portals == [] then Tables(maps)
    else
      match PlacePortals(maps, portals[..|portals| - 1])
      case TablesPanic(e) => TablesPanic(e)
      case Tables(m) => PlacePortal(m, portals[|portals| - 1])
  }

  /** What a run of `load_entities` ends in. */
  datatype EntitiesOutcome =
    | SpawnsPending       // no player spawn yet: retry next frame
    | PortalsPending      // spawns placed, no portal yet: retry next frame
    | EntitiesLoaded      // spawns and portals placed: `LoadedWorld` requested
    | EntitiesPanic(error: LoadError)

  /** The `World` resource. */
  class WorldResource {
    var maps: map<LevelIid, MapInfo>

    constructor (maps: map<LevelIid, MapInfo>)
      ensures this.maps == maps
    {
      this.maps := maps;
    }

    /** `load_entities`, given the spawn and portal queries of this frame. */
    method LoadEntities(spawns: seq<SpawnEntity>, portals: seq<PortalEntity>) returns (r: EntitiesOutcome)
      modifies this
      ensures PlaceSpawns(old(maps), spawns).TablesPanic? ==> r == EntitiesPanic(PlaceSpawns(old(maps), spawns).error)
      ensures spawns == [] ==> r == SpawnsPending && maps == old(maps)
      ensures spawns != [] && PlaceSpawns(old(maps), spawns).Tables? ==>
                var placed := PlaceSpawns(old(maps), spawns).maps;
                var linked := PlacePortals(placed, portals);
                && (linked.TablesPanic? ==> r == EntitiesPanic(linked.error))
                && (portals == [] ==> r == PortalsPending && maps == placed)
                && (portals != [] && linked.Tables? ==> r == EntitiesLoaded && maps == linked.maps)
    {
      ghost var start := maps;
      var i := 0;
      while i < |spawns|
        invariant 0 <= i <= |spawns|
        invariant PlaceSpawns(start, spawns[..i]) == Tables(maps)
      {
        assert spawns[..i + 1][..i] == spawns[..i];
        if spawns[i].level.iid !in maps {
          assert spawns[..i + 1] == spawns[..i + 1][..i] + [spawns[i]];
          PanicPersists(start, spawns, i + 1, UnknownLevel);
          return EntitiesPanic(UnknownLevel);
        }
        maps := maps[spawns[i].level.iid := maps[spawns[i].level.iid].(playerSpawn := SpawnPosition(spawns[i]))];
        i := i + 1;
      }
      assert spawns[..i] == spawns;
      if spawns == [] {
        return SpawnsPending;
      }
      ghost var placed := maps;
      var j := 0;
      while j < |portals|
        invariant 0 <= j <= |portals|
        invariant PlacePortals(placed, portals[..j]) == Tables(maps)
      {
        assert portals[..j + 1][..j] == portals[..j];
        var p := portals[j];
        if p.destination !in maps {
          PortalPanicPersists(placed, portals, j + 1, MissingDestination);
          return EntitiesPanic(MissingDestination);
        }
        if p.level.iid !in maps {
          PortalPanicPersists(placed, portals, j + 1, UnknownLevel);
          return EntitiesPanic(UnknownLevel);
        }
        var m := maps[p.level.iid];
        maps := maps[p.level.iid := m.(portals := m.portals + [PortalInfoOf(p)])];
        j := j + 1;
      }
      assert portals[..j] == portals;
      if portals == [] {
        return PortalsPending;
      }
      return EntitiesLoaded;
    }
  }

  /** Once the spawn loop panics, the whole loop panics the same way. */
  lemma {:induction false} PanicPersists(maps: map<LevelIid, MapInfo>, spawns: seq<SpawnEntity>, k: nat, e: LoadError)
    requires k <= |spawns| && PlaceSpawns(maps, spawns[..k]) == TablesPanic(e)
    ensures PlaceSpawns(maps, spawns) == TablesPanic(e)
    decreases |spawns| - k
  {
    if k < |spawns| {
      assert spawns[..k + 1][..k] == spawns[..k];
      PanicPersists(maps, spawns, k + 1, e);
    } else {
      assert spawns[..k] == spawns;
    }
  }

  /** Once the portal loop panics, the whole loop panics the same way. */
  lemma {:induction false} PortalPanicPersists(maps: map<LevelIid, MapInfo>, portals: seq<PortalEntity>, k: nat, e: LoadError)
    requires k <= |portals| && PlacePortals(maps, portals[..k]) == TablesPanic(e)
    ensures PlacePortals(maps, portals) == TablesPanic(e)
    decreases |portals| - k
  {
    if k < |portals| {
      assert portals[..k + 1][..k] == portals[..k];
      PortalPanicPersists(maps, portals, k + 1, e);
    } else {
      assert portals[..k] == portals;
    }
  }

  /** Placing spawns keeps the table's levels and changes nothing but spawn positions. */
  lemma {:induction false} PlaceSpawnsKeepsShape(maps: map<LevelIid, MapInfo>, spawns: seq<SpawnEntity>)
    requires PlaceSpawns(maps, spawns).Tables?
    ensures var m := PlaceSpawns(maps, spawns).maps;
            m.Keys == maps.Keys && forall iid | iid in m :: m[iid] == maps[iid].(playerSpawn := m[iid].playerSpawn)
  {
    if spawns != [] {
      PlaceSpawnsKeepsShape(maps, spawns[..|spawns| - 1]);
    }
  }

  /** Placing portals keeps the table's levels, changes nothing but portal lists, and only
      appends to them. */
  lemma {:induction false} PlacePortalsKeepsShape(maps: map<LevelIid, MapInfo>, portals: seq<PortalEntity>)
    requires PlacePortals(maps, portals).Tables?
    ensures var m := PlacePortals(maps, portals).maps;
            && m.Keys == maps.Keys
            && forall iid | iid in m :: m[iid] == maps[iid].(portals := m[iid].portals)
                                          && maps[iid].portals <= m[iid].portals
  {
    if portals != [] {
      PlacePortalsKeepsShape(maps, portals[..|portals| - 1]);
    }
  }

  /** One portal is appended to its own level's map and to no other. */
  lemma PortalJoinsOwnLevel(maps: map<LevelIid, MapInfo>, p: PortalEntity)
    requires PlacePortal(maps, p).Tables?
    ensures var m := PlacePortal(maps, p).maps;
            && m[p.level.iid].portals == maps[p.level.iid].portals + [PortalInfoOf(p)]
            && forall iid | iid in maps && iid != p.level.iid :: m[iid] == maps[iid]
  {
  }

  /** The portal loop aborts exactly when some portal leads to, or sits in, a level the
      table does not have. */
  lemma {:induction false} PortalsAbortIff(maps: map<LevelIid, MapInfo>, portals: seq<PortalEntity>)
    ensures PlacePortals(maps, portals).TablesPanic? <==>
            exists i | 0 <= i < |portals| :: portals[i].destination !in maps || portals[i].level.iid !in maps
  {
    if portals != [] {
      var front := portals[..|portals| - 1];
      var last := portals[|portals| - 1];
      PortalsAbortIff(maps, front);
      if PlacePortals(maps, front).Tables? {
        PlacePortalsKeepsShape(maps, front);
      }
      if exists i | 0 <= i < |front| :: front[i].destination !in maps || front[i].level.iid !in maps {
        var i :| 0 <= i < |front| && (front[i].destination !in maps || front[i].level.iid !in maps);
        assert portals[i] == front[i];
      }
      if exists i | 0 <= i < |portals| :: portals[i].destination !in maps || portals[i].level.iid !in maps {
        var i :| 0 <= i < |portals| && (portals[i].destination !in maps || portals[i].level.iid !in maps);
        if i < |front| {
          assert front[i] == portals[i];
        }
      }
    }
  }

  /** Every stored portal leads to a level of the table. */
  ghost predicate DestinationsKnown(maps: map<LevelIid, MapInfo>)
  {
    forall iid, k | iid in maps && 0 <= k < |maps[iid].portals| :: maps[iid].portals[k].destination in maps
  }

  /** The portal loop keeps every destination known. */
  lemma {:induction false} PlacePortalsKeepsDestinationsKnown(maps: map<LevelIid, MapInfo>, portals: seq<PortalEntity>)
    requires DestinationsKnown(maps) && PlacePortals(maps, portals).Tables?
    ensures DestinationsKnown(PlacePortals(maps, portals).maps)
  {
    if portals != [] {
      var front := portals[..|portals| - 1];
      PlacePortalsKeepsDestinationsKnown(maps, front);
      PlacePortalsKeepsShape(maps, front);
      var m := PlacePortals(maps, front).maps;
      PortalJoinsOwnLevel(m, portals[|portals| - 1]);
    }
  }

  /** A world that reaches `LoadedWorld` from a freshly cached table has every portal
      leading to a cached level. */
  lemma LoadedWorldIsClosed(t: (int, int), levels: map<LevelIid, Option<Level>>, spawns: seq<SpawnEntity>, portals: seq<PortalEntity>)
    requires AllCacheable(levels)
    requires PlaceSpawns(CachedMaps(t, levels), spawns).Tables?
    requires PlacePortals(PlaceSpawns(CachedMaps(t, levels), spawns).maps, portals).Tables?
    ensures DestinationsKnown(PlacePortals(PlaceSpawns(CachedMaps(t, levels), spawns).maps, portals).maps)
    ensures PlacePortals(PlaceSpawns(CachedMaps(t, levels), spawns).maps, portals).maps.Keys == levels.Keys
  {
    var cached := CachedMaps(t, levels);
    PlaceSpawnsKeepsShape(cached, spawns);
    var placed := PlaceSpawns(cached, spawns).maps;
    assert DestinationsKnown(placed);
    PlacePortalsKeepsDestinationsKnown(placed, portals);
    PlacePortalsKeepsShape(placed, portals);
  }

  /** `tst`: in `LoadedWorld`, attaches a collider to every mesh without one that yields
      one, and requests `Running` as soon as one frame was productive. */
  method Tst(state: ServerState, meshes: seq<MeshEntity>) returns (inserts: seq<(EntityId, Collider)>, next: Option<ServerState>)
    ensures state != LoadedWorld ==> inserts == [] && next == None
    ensures state == LoadedWorld ==> inserts == Productive(meshes)
    ensures state == LoadedWorld ==> (next == Some(Running) <==> exists i | 0 <= i < |meshes| :: meshes[i].built.Some?)
    ensures next != Some(Running) ==> next == None
  {
    inserts, next := [], None;
    if state == LoadedWorld {
      var done;
      done, inserts := AttachColliders(meshes);
      if done {
        next := Some(Running);
      }
    }
  }
}
