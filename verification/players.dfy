/**
 * Reading the players present at a tick: walk the slots 0 .. nextMappedPlayer-1
 * in order, ask the player cache for every slot that has a mapped entity, then
 * apply the one-versus-one team rewrite.
 */
module Players {
  import opened DemoTypes

  /** Team number and name given to slot order's first player by the rewrite. */
  const RedTeamId: int := 2
  const RedTeam: string := "red"
  /** Team number and name given to the second player by the rewrite. */
  const BlueTeamId: int := 3
  const BlueTeam: string := "blue"

  ghost predicate StrictlyIncreasing(s: seq<int>) {
    forall i, j :: 0 <= i < j < |s| ==> s[i] < s[j]
  }

  /** The slots the walk visits and finds mapped, as a set. */
  ghost function SlotSet(next: int, entityPlayerMap: map<int, Player>): set<int> {
    set s | 0 <= s < next && s in entityPlayerMap
  }

  /** The mapped slots below `next`, in the order the walk visits them. */
  function MappedSlots(next: int, entityPlayerMap: map<int, Player>): (r: seq<int>)
    ensures StrictlyIncreasing(r)
    ensures forall s :: s in r <==> 0 <= s < next && s in entityPlayerMap
    ensures |r| <= if next < 0 then 0 else next
    decreases next
  {
    if next <= 0 then []
    else
      var below := MappedSlots(next - 1, entityPlayerMap);
      assert forall i :: 0 <= i < |below| ==> below[i] in below;
      assert forall i :: 0 <= i < |below| ==> below[i] < next - 1;
      if next - 1 in entityPlayerMap then below + [next - 1] else below
  }

  /** The cache's snapshot for a mapped slot, looked up with that slot's entity's user. */
  function SlotPlayer(cache: PlayerCache, entityPlayerMap: map<int, Player>, tick: int, slot: int): (r: CachedPlayer)
    requires slot in entityPlayerMap
  {
    cache.getPlayer(tick, slot, entityPlayerMap[slot].user)
  }

  /**
   * The list the slot walk builds before the team rewrite: the k-th entry is
   * the cache's snapshot for the k-th mapped slot.
   */
  function CollectPlayers(cache: PlayerCache, next: int, entityPlayerMap: map<int, Player>, tick: int): (r: seq<CachedPlayer>)
    ensures |r| == |MappedSlots(next, entityPlayerMap)|
    ensures forall k :: 0 <= k < |r| ==>
              var slot := MappedSlots(next, entityPlayerMap)[k];
              slot in entityPlayerMap && r[k] == SlotPlayer(cache, entityPlayerMap, tick, slot)
    decreases next
  {
    if next <= 0 then []
    else
      var below := CollectPlayers(cache, next - 1, entityPlayerMap, tick);
      if next - 1 in entityPlayerMap then below + [SlotPlayer(cache, entityPlayerMap, tick, next - 1)] else below
  }

  /** The rewrite fires on exactly two players when the first one has team number 0; the second one's team is not read. */
  predicate FixUpApplies(players: seq<CachedPlayer>) {
    |players| == 2 && players[0].teamId == 0
  }

  /**
   * The "fake teams in a one-versus-one free-for-all" rewrite: relabel the two
   * players red and blue when it applies, otherwise return the list as given.
   */
  function FakeTeams(players: seq<CachedPlayer>): (r: seq<CachedPlayer>)
    ensures |r| == |players|
    ensures forall k :: 0 <= k < |r| ==> r[k].details == players[k].details
    ensures FixUpApplies(players) ==>
              && r[0].teamId == RedTeamId && r[0].team == RedTeam
              && r[1].teamId == BlueTeamId && r[1].team == BlueTeam
    ensures !FixUpApplies(players) ==> r == players
  {
    if FixUpApplies(players) then
      [players[0].(teamId := RedTeamId, team := RedTeam), players[1].(teamId := BlueTeamId, team := BlueTeam)]
    else players
  }

  /**
   * The players present at a tick, as the parser reports them: one entry per
   * mapped slot in slot order, each with its slot's snapshot apart from the team.
   */
  function PlayersAtTick(cache: PlayerCache, next: int, entityPlayerMap: map<int, Player>, tick: int): (r: seq<CachedPlayer>)
    ensures |r| == |MappedSlots(next, entityPlayerMap)|
    ensures forall k :: 0 <= k < |r| ==>
              var slot := MappedSlots(next, entityPlayerMap)[k];
              slot in entityPlayerMap && r[k].details == SlotPlayer(cache, entityPlayerMap, tick, slot).details
  {
    FakeTeams(CollectPlayers(cache, next, entityPlayerMap, tick))
  }

  /** Every mapped slot in range appears exactly once, so the list has one entry per element of SlotSet. */
  lemma {:induction false} MappedSlotsCoverSlotSet(next: int, entityPlayerMap: map<int, Player>)
    ensures |MappedSlots(next, entityPlayerMap)| == |SlotSet(next, entityPlayerMap)|
    decreases next
  {
    if next <= 0 {
      assert SlotSet(next, entityPlayerMap) == {};
    } else {
      MappedSlotsCoverSlotSet(next - 1, entityPlayerMap);
      var below := SlotSet(next - 1, entityPlayerMap);
      assert next - 1 !in below;
      if next - 1 in entityPlayerMap {
        assert SlotSet(next, entityPlayerMap) == below + {next - 1};
      } else {
        assert SlotSet(next, entityPlayerMap) == below;
      }
    }
  }

  /**
   * What a read of the players at a tick returns: at most `next` entries, one
   * per mapped slot in increasing slot order; every entry is the cache's
   * snapshot for its slot except for the team fields, and those are touched
   * only when the rewrite fires.
   */
  lemma PlayersAtTickShape(cache: PlayerCache, next: int, entityPlayerMap: map<int, Player>, tick: int)
    ensures var r := PlayersAtTick(cache, next, entityPlayerMap, tick);
            var slots := MappedSlots(next, entityPlayerMap);
            && |r| == |slots| == |SlotSet(next, entityPlayerMap)|
            && (next >= 0 ==> |r| <= next)
            && (next <= 0 ==> r == [])
            && forall k :: 0 <= k < |r| ==>
                 && slots[k] in entityPlayerMap
                 && r[k].details == SlotPlayer(cache, entityPlayerMap, tick, slots[k]).details
                 && (!FixUpApplies(CollectPlayers(cache, next, entityPlayerMap, tick)) ==>
                       r[k] == SlotPlayer(cache, entityPlayerMap, tick, slots[k]))
  {
    MappedSlotsCoverSlotSet(next, entityPlayerMap);
  }

  /**
   * The rewrite fires exactly when two slots are mapped and the first mapped
   * slot's snapshot has team number 0, whatever the second one's team is.
   */
  lemma PlayersAtTickFixUp(cache: PlayerCache, next: int, entityPlayerMap: map<int, Player>, tick: int)
    ensures var r := PlayersAtTick(cache, next, entityPlayerMap, tick);
            var slots := MappedSlots(next, entityPlayerMap);
            (|slots| == 2 && SlotPlayer(cache, entityPlayerMap, tick, slots[0]).teamId == 0) ==>
              && r[0] == SlotPlayer(cache, entityPlayerMap, tick, slots[0]).(teamId := RedTeamId, team := RedTeam)
              && r[1] == SlotPlayer(cache, entityPlayerMap, tick, slots[1]).(teamId := BlueTeamId, team := BlueTeam)
  {
  }

  /** The rewrite changes the list if and only if it applies. */
  lemma FakeTeamsChangesIff(players: seq<CachedPlayer>)
    ensures FakeTeams(players) != players <==> FixUpApplies(players)
  {
  }

  /** The rewrite is idempotent: once relabelled, the first player is no longer on team 0. */
  lemma FakeTeamsIdempotent(players: seq<CachedPlayer>)
    ensures FakeTeams(FakeTeams(players)) == FakeTeams(players)
  {
  }

  /**
   * Whether the rewrite fires, and what it produces, does not depend on the
   * second player's team: two lists that differ only there give the same result.
   */
  lemma FakeTeamsIgnoresSecondTeam(first: CachedPlayer, second: CachedPlayer, otherId: int, otherName: string)
    ensures FixUpApplies([first, second]) == FixUpApplies([first, second.(teamId := otherId, team := otherName)])
    ensures first.teamId == 0 ==>
              FakeTeams([first, second]) == FakeTeams([first, second.(teamId := otherId, team := otherName)])
  {
  }

  /**
   * The general rule "exactly two players on the same team" is not the rule the
   * parser applies: a pair on teams 0 and 2 is relabelled, a pair both on team 5 is not.
   */
  ghost predicate SameTeamRule(players: seq<CachedPlayer>) {
    |players| == 2 && players[0].teamId == players[1].teamId
  }

  lemma FixUpIsNotSameTeamRule(d: PlayerDetails)
    ensures var mixed := [CachedPlayer(0, "", d), CachedPlayer(RedTeamId, RedTeam, d)];
            FixUpApplies(mixed) && !SameTeamRule(mixed)
    ensures var same := [CachedPlayer(5, "", d), CachedPlayer(5, "", d)];
            !FixUpApplies(same) && SameTeamRule(same)
  {
  }
}
