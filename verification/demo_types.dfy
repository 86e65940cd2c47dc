/**
 * The records a finished parse produces (CachedDemo and its parts) and the
 * query interface of the three entity caches.
 *
 * The decoding library's values and the caches' internals are not part of this
 * model: they appear as abstract types, and each cache is represented by its
 * query function alone.
 */
module DemoTypes {
  import opened Wrappers

  /** Demo header (map name, server, duration, ...) from the decoding library. */
  type Header
  /** World bounds and map metadata from the decoding library. */
  type World
  /** The user record a decoded player entity carries. */
  type UserInfo
  /** One scored round of the match. */
  type Round
  /** A building snapshot at some tick. */
  type CachedBuilding
  /** A projectile snapshot at some tick. */
  type CachedProjectile
  /** Every field of a player snapshot other than its team: health, position, view angles, class, ... */
  type PlayerDetails
  /** The plain-data forms of the three caches, as they cross the worker boundary. */
  type PlayerCacheData
  type BuildingCacheData
  type ProjectileCacheData

  /** A decoded player entity; only its user record is read here. */
  datatype Player = Player(user: UserInfo)

  /** A player's state at one tick: the team number, the team name and everything else. */
  datatype CachedPlayer = CachedPlayer(teamId: int, team: string, details: PlayerDetails)

  /** One kill, with every participant's team captured when it happened. */
  datatype CachedDeath = CachedDeath(
    tick: int,
    victim: Player,
    assister: Option<Player>,
    killer: Option<Player>,
    weapon: string,
    victimTeam: int,
    assisterTeam: int,
    killerTeam: int)

  /** The death log, keyed by the tick written as a string. */
  type Deaths = map<string, seq<CachedDeath>>

  /** A live player cache: the snapshot for (tick, slot, user). */
  datatype PlayerCache = PlayerCache(getPlayer: (int, int, UserInfo) -> CachedPlayer)

  /** A live building cache: the buildings present at a tick. */
  datatype BuildingCache = BuildingCache(getBuildings: int -> seq<CachedBuilding>)

  /** A live projectile cache: the projectiles present at a tick. */
  datatype ProjectileCache = ProjectileCache(getProjectiles: int -> seq<CachedProjectile>)

  /**
   * The object the parse promise resolves with, with live caches. A field is
   * None when the message it came from did not carry it (it reads `undefined`).
   */
  datatype CachedDemo = CachedDemo(
    header: Option<Header>,
    playerCache: Option<PlayerCache>,
    ticks: Option<int>,
    deaths: Option<Deaths>,
    rounds: Option<seq<Round>>,
    buildingCache: Option<BuildingCache>,
    projectileCache: Option<ProjectileCache>,
    intervalPerTick: Option<real>,
    world: Option<World>,
    nextMappedPlayer: Option<int>,
    entityPlayerMap: Option<map<int, Player>>,
    now: Option<real>)

  /** The result fields of a worker message, caches still plain data; a field is None when absent. */
  datatype WireDemo = WireDemo(
    header: Option<Header>,
    playerCache: Option<PlayerCacheData>,
    ticks: Option<int>,
    deaths: Option<Deaths>,
    rounds: Option<seq<Round>>,
    buildingCache: Option<BuildingCacheData>,
    projectileCache: Option<ProjectileCacheData>,
    intervalPerTick: Option<real>,
    world: Option<World>,
    nextMappedPlayer: Option<int>,
    entityPlayerMap: Option<map<int, Player>>,
    now: Option<real>)

  /** A finished parse result: every field of the CachedDemo interface is present. */
  predicate Complete(w: WireDemo) {
    && w.header.Some? && w.playerCache.Some? && w.ticks.Some? && w.deaths.Some?
    && w.rounds.Some? && w.buildingCache.Some? && w.projectileCache.Some?
    && w.intervalPerTick.Some? && w.world.Some? && w.nextMappedPlayer.Some?
    && w.entityPlayerMap.Some? && w.now.Some?
  }

  /** The result fields of a message that carries none of them, such as a progress report. */
  const NoFields: WireDemo :=
    WireDemo(None, None, None, None, None, None, None, None, None, None, None, None)

  /** A resolved value with every field `undefined`. */
  const EmptyDemo: CachedDemo :=
    CachedDemo(None, None, None, None, None, None, None, None, None, None, None, None)

  /**
   * One cache's static `rehydrate`: what it turns plain data into, and whether
   * it returns normally when handed `undefined` instead of throwing.
   */
  datatype Rehydrator<!D, C> = Rehydrator(live: D -> C, acceptsUndefined: bool)

  /** The three caches' `rehydrate` operations. */
  datatype Rehydrators = Rehydrators(
    player: Rehydrator<PlayerCacheData, PlayerCache>,
    building: Rehydrator<BuildingCacheData, BuildingCache>,
    projectile: Rehydrator<ProjectileCacheData, ProjectileCache>)

  /** All three `rehydrate` calls return normally on `undefined`. */
  predicate AcceptsUndefined(rh: Rehydrators) {
    rh.player.acceptsUndefined && rh.building.acceptsUndefined && rh.projectile.acceptsUndefined
  }

  /** A `rehydrate` call threw, so the message handler stopped there. */
  datatype Thrown = RehydrateThrew

  /** Rehydrating one cache field in place: present data becomes live, `undefined` stays `undefined` or throws. */
  function RehydrateField<D, C>(r: Rehydrator<D, C>, field: Option<D>): (res: Result<Option<C>, Thrown>)
    ensures field.Some? ==> res == Success(Some(r.live(field.value)))
    ensures field.None? ==> (res.Success? <==> r.acceptsUndefined)
    ensures field.None? && res.Success? ==> res.value.None?
  {
    match field
    case Some(data) => Success(Some(r.live(data)))
    case None => if r.acceptsUndefined then Success(None) else Failure(RehydrateThrew)
  }

  /**
   * The handler's three `rehydrate` calls on a message's result fields, player
   * cache first: the object they leave behind, or the fact that one threw.
   */
  function Rehydrate(w: WireDemo, rh: Rehydrators): (r: Result<CachedDemo, Thrown>)
    ensures r.Success? <==>
              && (w.playerCache.Some? || rh.player.acceptsUndefined)
              && (w.buildingCache.Some? || rh.building.acceptsUndefined)
              && (w.projectileCache.Some? || rh.projectile.acceptsUndefined)
    ensures r.Success? ==>
              && r.value.playerCache.Some? == w.playerCache.Some?
              && r.value.buildingCache.Some? == w.buildingCache.Some?
              && r.value.projectileCache.Some? == w.projectileCache.Some?
              && (w.playerCache.Some? ==> r.value.playerCache.value == rh.player.live(w.playerCache.value))
              && (w.buildingCache.Some? ==> r.value.buildingCache.value == rh.building.live(w.buildingCache.value))
              && (w.projectileCache.Some? ==> r.value.projectileCache.value == rh.projectile.live(w.projectileCache.value))
    ensures r.Success? ==>
              && r.value.header == w.header && r.value.ticks == w.ticks && r.value.deaths == w.deaths
              && r.value.rounds == w.rounds && r.value.intervalPerTick == w.intervalPerTick
              && r.value.world == w.world && r.value.nextMappedPlayer == w.nextMappedPlayer
              && r.value.entityPlayerMap == w.entityPlayerMap && r.value.now == w.now
  {
    var player := RehydrateField(rh.player, w.playerCache);
    if player.Failure? then Failure(RehydrateThrew)
    else
      var building := RehydrateField(rh.building, w.buildingCache);
      if building.Failure? then Failure(RehydrateThrew)
      else
        var projectile := RehydrateField(rh.projectile, w.projectileCache);
        if projectile.Failure? then Failure(RehydrateThrew)
        else
          Success(CachedDemo(
            w.header, player.value, w.ticks, w.deaths, w.rounds, building.value, projectile.value,
            w.intervalPerTick, w.world, w.nextMappedPlayer, w.entityPlayerMap, w.now))
  }

  /** A complete result always rehydrates, whatever `rehydrate` does with `undefined`, and stays complete. */
  lemma RehydrateComplete(w: WireDemo, rh: Rehydrators)
    requires Complete(w)
    ensures Rehydrate(w, rh).Success?
    ensures var d := Rehydrate(w, rh).value;
            && d.playerCache == Some(rh.player.live(w.playerCache.value))
            && d.buildingCache == Some(rh.building.live(w.buildingCache.value))
            && d.projectileCache == Some(rh.projectile.live(w.projectileCache.value))
            && d.nextMappedPlayer.Some? && d.entityPlayerMap.Some? && d.deaths.Some?
  {
  }

  /** A message with no result fields rehydrates exactly when all three calls accept `undefined`, to the empty object. */
  lemma RehydrateNoFields(rh: Rehydrators)
    ensures Rehydrate(NoFields, rh).Success? <==> AcceptsUndefined(rh)
    ensures Rehydrate(NoFields, rh).Success? ==> Rehydrate(NoFields, rh).value == EmptyDemo
  {
  }
}
