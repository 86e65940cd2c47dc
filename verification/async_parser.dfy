/**
 * The AsyncParser façade: its state, its constructor, `cache()` adopting the
 * worker's result, and the three tick-indexed read accessors.
 */
module AsyncParser {
  import opened Wrappers
  import opened JsValues
  import opened DemoTypes
  import opened Players
  import opened Dispatch

  /** The function the caller passes to receive progress reports; only its identity matters here. */
  type ProgressCallbackHandle

  /**
   * The parser's fields; None stands for `undefined`. `nextMappedPlayer`,
   * `entityPlayerMap` and `deaths` start defined, the others only become
   * defined when `cache()` copies a result onto the parser.
   */
  datatype Parser = Parser(
    buffer: seq<bv8>,
    progressCallback: ProgressCallbackHandle,
    header: Option<Header>,
    playerCache: Option<PlayerCache>,
    nextMappedPlayer: Option<int>,
    entityPlayerMap: Option<map<int, Player>>,
    ticks: Option<int>,
    deaths: Option<Deaths>,
    rounds: Option<seq<Round>>,
    buildingCache: Option<BuildingCache>,
    projectileCache: Option<ProjectileCache>,
    intervalPerTick: Option<real>,
    world: Option<World>)

  /** Reading a property of `undefined` throws a TypeError in the source. */
  datatype AccessError = ReadOfUndefined

  /** How the promise returned by `cache()` stands. */
  datatype CacheStatus = Waiting | Cached | Failed(reason: JsValue)

  /** The constructor: keeps the buffer and the callback, no slots mapped, no deaths, nothing cached yet. */
  function NewParser(buffer: seq<bv8>, progressCallback: ProgressCallbackHandle): (p: Parser)
    ensures p.buffer == buffer && p.progressCallback == progressCallback
    ensures p.nextMappedPlayer == Some(0) && p.entityPlayerMap == Some(map[]) && p.deaths == Some(map[])
    ensures p.header.None? && p.playerCache.None? && p.ticks.None? && p.rounds.None?
    ensures p.buildingCache.None? && p.projectileCache.None? && p.intervalPerTick.None? && p.world.None?
  {
    Parser(buffer, progressCallback, None, None, Some(0), Some(map[]), None, Some(map[]), None, None, None, None, None)
  }

  /** The success handler of `cache()`: copy the result's fields onto the parser, `undefined` ones included. */
  function Adopt(p: Parser, d: CachedDemo): (r: Parser)
    ensures r.buffer == p.buffer && r.progressCallback == p.progressCallback
    ensures r.ticks == d.ticks && r.header == d.header
    ensures r.playerCache == d.playerCache && r.buildingCache == d.buildingCache
    ensures r.projectileCache == d.projectileCache
    ensures r.deaths == d.deaths && r.rounds == d.rounds
    ensures r.intervalPerTick == d.intervalPerTick && r.world == d.world
    ensures r.nextMappedPlayer == d.nextMappedPlayer && r.entityPlayerMap == d.entityPlayerMap
  {
    p.(ticks := d.ticks,
       header := d.header,
       playerCache := d.playerCache,
       buildingCache := d.buildingCache,
       projectileCache := d.projectileCache,
       deaths := d.deaths,
       rounds := d.rounds,
       intervalPerTick := d.intervalPerTick,
       world := d.world,
       nextMappedPlayer := d.nextMappedPlayer,
       entityPlayerMap := d.entityPlayerMap)
  }

  /** `cache()` once the worker's promise stands as `s`: adopt on resolution, leave the parser alone otherwise. */
  function CacheOutcome(p: Parser, s: Settlement): (r: (Parser, CacheStatus))
    ensures s.Pending? ==> r == (p, Waiting)
    ensures s.Rejected? ==> r == (p, Failed(s.reason))
    ensures s.Resolved? ==> r == (Adopt(p, s.demo), Cached)
  {
    match s
    case Pending => (p, Waiting)
    case Rejected(reason) => (p, Failed(reason))
    case Resolved(demo) => (Adopt(p, demo), Cached)
  }

  /**
   * `cache()` after the worker has delivered `msgs`: the buffer and callback
   * are never touched, and unless it succeeded the parser is unchanged.
   */
  function Cache(p: Parser, msgs: seq<Message>, rh: Rehydrators): (r: (Parser, CacheStatus))
    ensures r.0.buffer == p.buffer && r.0.progressCallback == p.progressCallback
    ensures !r.1.Cached? ==> r.0 == p
  {
    CacheOutcome(p, Run(Pending, msgs, rh).settlement)
  }

  /**
   * `getPlayersAtTick` as a value. It reports no players when `nextMappedPlayer`
   * is undefined or not positive; it fails when the walk reads the slot map
   * while it is undefined, or reaches a mapped slot while the player cache is.
   */
  function PlayersOf(p: Parser, tick: int): (r: Result<seq<CachedPlayer>, AccessError>)
    ensures p.nextMappedPlayer.None? || p.nextMappedPlayer.value <= 0 ==> r == Success([])
    ensures r.Failure? <==>
              && p.nextMappedPlayer.Some? && p.nextMappedPlayer.value > 0
              && (|| p.entityPlayerMap.None?
                  || (p.playerCache.None? && exists s :: 0 <= s < p.nextMappedPlayer.value && s in p.entityPlayerMap.value))
    ensures r.Success? && p.nextMappedPlayer.Some? && p.entityPlayerMap.Some? ==>
              |r.value| == |MappedSlots(p.nextMappedPlayer.value, p.entityPlayerMap.value)|
  {
    if p.nextMappedPlayer.None? || p.nextMappedPlayer.value <= 0 then Success([])
    else if p.entityPlayerMap.None? then Failure(ReadOfUndefined)
    else
      var slots := MappedSlots(p.nextMappedPlayer.value, p.entityPlayerMap.value);
      if p.playerCache.Some? then
        Success(PlayersAtTick(p.playerCache.value, p.nextMappedPlayer.value, p.entityPlayerMap.value, tick))
      else if slots == [] then Success([])
      else
        assert slots[0] in slots;
        Failure(ReadOfUndefined)
  }

  /** `getPlayersAtTick`: the slot walk and the team rewrite, step by step. */
  method GetPlayersAtTick(p: Parser, tick: int) returns (r: Result<seq<CachedPlayer>, AccessError>)
    ensures r == PlayersOf(p, tick)
  {
    var players: seq<CachedPlayer> := [];
    if p.nextMappedPlayer.Some? {
      var next := p.nextMappedPlayer.value;
      var i := 0;
      while i < next
        invariant 0 <= i && (i <= next || i == 0)
        invariant i > 0 ==> p.entityPlayerMap.Some?
        invariant p.entityPlayerMap.Some? && p.playerCache.Some? ==>
                    players == CollectPlayers(p.playerCache.value, i, p.entityPlayerMap.value, tick)
        invariant p.entityPlayerMap.None? || p.playerCache.None? ==> players == []
        invariant p.entityPlayerMap.Some? && p.playerCache.None? ==> MappedSlots(i, p.entityPlayerMap.value) == []
      {
        if p.entityPlayerMap.None? {
          return Failure(ReadOfUndefined);
        }
        var entityPlayerMap := p.entityPlayerMap.value;
        if i in entityPlayerMap {
          if p.playerCache.None? {
            assert i in MappedSlots(next, entityPlayerMap);
            return Failure(ReadOfUndefined);
          }
          players := players + [p.playerCache.value.getPlayer(tick, i, entityPlayerMap[i].user)];
        }
        i := i + 1;
      }
      assert next > 0 ==> i == next;
    }
    ghost var collected := players;
    // The source tests player 0's team twice; player 1's team is never read.
    if |players| == 2 && players[0].teamId == 0 && players[0].teamId == 0 {
      players := players[0 := players[0].(teamId := RedTeamId)];
      players := players[0 := players[0].(team := RedTeam)];
      players := players[1 := players[1].(teamId := BlueTeamId)];
      players := players[1 := players[1].(team := BlueTeam)];
    }
    assert players == FakeTeams(collected);
    r := Success(players);
  }

  /** `getBuildingAtTick`: the building cache's answer for the tick. */
  function GetBuildingAtTick(p: Parser, tick: int): (r: Result<seq<CachedBuilding>, AccessError>)
    ensures r.Success? <==> p.buildingCache.Some?
    ensures r.Success? ==> r.value == p.buildingCache.value.getBuildings(tick)
  {
    if p.buildingCache.Some? then Success(p.buildingCache.value.getBuildings(tick)) else Failure(ReadOfUndefined)
  }

  /** `getProjectilesAtTick`: the projectile cache's answer for the tick. */
  function GetProjectilesAtTick(p: Parser, tick: int): (r: Result<seq<CachedProjectile>, AccessError>)
    ensures r.Success? <==> p.projectileCache.Some?
    ensures r.Success? ==> r.value == p.projectileCache.value.getProjectiles(tick)
  {
    if p.projectileCache.Some? then Success(p.projectileCache.value.getProjectiles(tick)) else Failure(ReadOfUndefined)
  }

  /** A fresh parser reports no players at any tick, and its building and projectile reads fail. */
  lemma FreshParserReads(buffer: seq<bv8>, cb: ProgressCallbackHandle, tick: int)
    ensures PlayersOf(NewParser(buffer, cb), tick) == Success([])
    ensures GetBuildingAtTick(NewParser(buffer, cb), tick) == Failure(ReadOfUndefined)
    ensures GetProjectilesAtTick(NewParser(buffer, cb), tick) == Failure(ReadOfUndefined)
  {
  }

  /** After adoption the parser's state no longer depends on what it held before, except for the buffer and the callback. */
  lemma AdoptForgetsPriorState(p: Parser, q: Parser, d: CachedDemo)
    ensures Adopt(p, d) == Adopt(q, d) <==> p.buffer == q.buffer && p.progressCallback == q.progressCallback
  {
  }

  /** Adopting the same result twice is the same as adopting it once. */
  lemma AdoptIdempotent(p: Parser, d: CachedDemo)
    ensures Adopt(Adopt(p, d), d) == Adopt(p, d)
  {
  }

  /** After adopting a result that carries its caches and slot map, every read is answered from them. */
  lemma ReadsAfterAdopt(p: Parser, d: CachedDemo, tick: int)
    requires d.playerCache.Some? && d.buildingCache.Some? && d.projectileCache.Some?
    requires d.nextMappedPlayer.Some? && d.entityPlayerMap.Some?
    ensures PlayersOf(Adopt(p, d), tick) ==
              Success(PlayersAtTick(d.playerCache.value, d.nextMappedPlayer.value, d.entityPlayerMap.value, tick))
    ensures GetBuildingAtTick(Adopt(p, d), tick) == Success(d.buildingCache.value.getBuildings(tick))
    ensures GetProjectilesAtTick(Adopt(p, d), tick) == Success(d.projectileCache.value.getProjectiles(tick))
  {
  }

  /**
   * Adopting an object with no result fields makes all eleven fields
   * `undefined`: the player walk runs zero times and reports no players, and
   * the building and projectile reads fail.
   */
  lemma ReadsAfterEmptyAdopt(p: Parser, tick: int)
    ensures var q := Adopt(p, EmptyDemo);
            && q.nextMappedPlayer.None? && q.entityPlayerMap.None? && q.deaths.None? && q.ticks.None?
            && PlayersOf(q, tick) == Success([])
            && GetBuildingAtTick(q, tick) == Failure(ReadOfUndefined)
            && GetProjectilesAtTick(q, tick) == Failure(ReadOfUndefined)
  {
  }

  /**
   * `cache()` from start to finish: when the first settling message is an
   * error, `cache()` fails with it and the parser is unchanged; when it is a
   * complete result, `cache()` succeeds and the parser answers reads from that
   * result's rehydrated caches and slot map.
   */
  lemma {:induction false} CacheEndToEnd(p: Parser, msgs: seq<Message>, k: nat, rh: Rehydrators, tick: int)
    requires k < |msgs|
    requires forall i :: 0 <= i < k ==> !Settles(msgs[i], rh)
    requires Settles(msgs[k], rh)
    ensures Truthy(msgs[k].error) ==> Cache(p, msgs, rh) == (p, Failed(msgs[k].error))
    ensures !Truthy(msgs[k].error) && Complete(msgs[k].payload) ==>
              var w := msgs[k].payload;
              var (q, status) := Cache(p, msgs, rh);
              && status == Cached
              && q.nextMappedPlayer == w.nextMappedPlayer && q.entityPlayerMap == w.entityPlayerMap
              && q.deaths == w.deaths && q.ticks == w.ticks
              && PlayersOf(q, tick) == Success(PlayersAtTick(rh.player.live(w.playerCache.value),
                                                             w.nextMappedPlayer.value, w.entityPlayerMap.value, tick))
              && GetBuildingAtTick(q, tick) == Success(rh.building.live(w.buildingCache.value).getBuildings(tick))
              && GetProjectilesAtTick(q, tick) == Success(rh.projectile.live(w.projectileCache.value).getProjectiles(tick))
  {
    FirstSettlingMessageDecides(msgs, k, rh);
    if !Truthy(msgs[k].error) && Complete(msgs[k].payload) {
      RehydrateComplete(msgs[k].payload, rh);
      ReadsAfterAdopt(p, Rehydrate(msgs[k].payload, rh).value, tick);
    }
  }

  /** While no settling message has arrived, `cache()` waits and the parser is unchanged. */
  lemma CacheWaitsWhileUnsettled(p: Parser, msgs: seq<Message>, rh: Rehydrators)
    requires forall i :: 0 <= i < |msgs| ==> !Settles(msgs[i], rh)
    ensures Cache(p, msgs, rh) == (p, Waiting)
  {
    NonSettlingKeepsPending(msgs, rh);
  }

  /**
   * A `{progress: 0}` message ahead of the real result: when all three
   * `rehydrate` calls accept `undefined`, `cache()` succeeds with every field
   * `undefined` and the real result is ignored; otherwise the handler throws on
   * it and `cache()` goes on exactly as if it had never arrived.
   */
  lemma ZeroProgressBeforeResult(p: Parser, m: Message, rest: seq<Message>, rh: Rehydrators, tick: int)
    requires !Truthy(m.error) && m.progress == Num(0.0) && m.payload == NoFields
    ensures AcceptsUndefined(rh) ==>
              && Cache(p, [m] + rest, rh) == (Adopt(p, EmptyDemo), Cached)
              && PlayersOf(Cache(p, [m] + rest, rh).0, tick) == Success([])
              && GetBuildingAtTick(Cache(p, [m] + rest, rh).0, tick) == Failure(ReadOfUndefined)
    ensures !AcceptsUndefined(rh) ==> Cache(p, [m] + rest, rh) == Cache(p, rest, rh)
  {
  }
}
