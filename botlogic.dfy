/**
 * What the example bots decide, stated once as functions of the game state:
 * who the opponents are, where the bot starts, which squads form its army,
 * which token slot it attacks, and which commands it sends. The three bot
 * classes compute these with loops and are proved against them.
 */
module BotLogic {
  import opened Wrappers
  import opened Codec
  import opened Types
  import Helpers

  /** `e.player_entity_id == id`: an entity without an owner belongs to nobody. */
  predicate OwnedBy(e: Entity, id: EntityId)
  {
    e.playerEntityId == Some(id)
  }

  /** The entity belongs to one of `ids`. */
  predicate OwnedByAnyOf(e: Entity, ids: seq<EntityId>)
  {
    e.playerEntityId.Some? && e.playerEntityId.value in ids
  }

  // Finding a player

  function MatchPlayerIds(players: seq<MatchPlayer>): (ids: seq<EntityId>)
    ensures |ids| == |players|
    ensures forall i :: 0 <= i < |players| ==> ids[i] == players[i].entity.id
  {
    seq(|players|, i requires 0 <= i < |players| => players[i].entity.id)
  }

  function PlayerIds(players: seq<PlayerEntity>): (ids: seq<EntityId>)
    ensures |ids| == |players|
    ensures forall i :: 0 <= i < |players| ==> ids[i] == players[i].id
  {
    seq(|players|, i requires 0 <= i < |players| => players[i].id)
  }

  /**
   * What `std::lower_bound` asks of its range: every id below `key` comes
   * before every id that is not.
   */
  ghost predicate Partitioned(ids: seq<EntityId>, key: EntityId)
  {
    forall i, j :: 0 <= i < j < |ids| && ids[j] < key ==> ids[i] < key
  }

  /**
   * `std::lower_bound(ids, key)`: the number of leading ids below `key`,
   * which on a partitioned range is the first position whose id is not
   * below `key`.
   */
  function LowerBound(ids: seq<EntityId>, key: EntityId): (r: nat)
    ensures r <= |ids|
    ensures forall i :: 0 <= i < r ==> ids[i] < key
    ensures r < |ids| ==> ids[r] >= key
  {
    if |ids| == 0 || ids[0] >= key then 0 else 1 + LowerBound(ids[1..], key)
  }

  /** On a partitioned range everything from the lower bound on is at least `key`. */
  lemma LowerBoundSplits(ids: seq<EntityId>, key: EntityId)
    requires Partitioned(ids, key)
    ensures forall i :: LowerBound(ids, key) <= i < |ids| ==> ids[i] >= key
  {
    var r := LowerBound(ids, key);
    forall i | r <= i < |ids|
      ensures ids[i] >= key
    {
    }
  }

  /**
   * The lower bound is the only boundary with every id before it below
   * `key` and every id from it on at least `key`.
   */
  lemma {:induction false} LowerBoundIsBoundary(ids: seq<EntityId>, key: EntityId, b: nat)
    requires b <= |ids|
    requires forall k :: 0 <= k < b ==> ids[k] < key
    requires forall k :: b <= k < |ids| ==> ids[k] >= key
    ensures b == LowerBound(ids, key)
  {
    if |ids| > 0 && ids[0] < key {
      LowerBoundIsBoundary(ids[1..], key, b - 1);
    }
  }

  /** Ids in ascending order are partitioned by any key. */
  lemma SortedIsPartitioned(ids: seq<EntityId>, key: EntityId)
    requires forall i, j :: 0 <= i < j < |ids| ==> ids[i] <= ids[j]
    ensures Partitioned(ids, key)
  {
  }

  /**
   * When the ids are in ascending order and include `key`, the lower bound
   * is a position holding `key`.
   */
  lemma LowerBoundFindsKey(ids: seq<EntityId>, key: EntityId)
    requires forall i, j :: 0 <= i < j < |ids| ==> ids[i] <= ids[j]
    requires key in ids
    ensures LowerBound(ids, key) < |ids| && ids[LowerBound(ids, key)] == key
  {
    SortedIsPartitioned(ids, key);
    LowerBoundSplits(ids, key);
    var k :| 0 <= k < |ids| && ids[k] == key;
  }

  /**
   * With ids in strictly ascending order and mine among them, `lower_bound`
   * and the first-match search find the same player, so both kinds of `Tick`
   * use my own power.
   */
  lemma LowerBoundFindsMe(players: seq<PlayerEntity>, id: EntityId)
    requires forall i, j :: 0 <= i < j < |players| ==> players[i].id < players[j].id
    requires exists k :: 0 <= k < |players| && players[k].id == id
    ensures Partitioned(PlayerIds(players), id)
    ensures FindPlayer(players, id) == Some(LowerBound(PlayerIds(players), id))
    ensures players[LowerBound(PlayerIds(players), id)].id == id
  {
    var ids := PlayerIds(players);
    var k :| 0 <= k < |players| && players[k].id == id;
    assert ids[k] == id;
    LowerBoundFindsKey(ids, id);
  }

  /**
   * When my id is missing but a larger one is present, `lower_bound` stops at
   * the first larger id: that player, not me, is the one the bot then reads.
   */
  lemma LowerBoundPassesMissingKey(ids: seq<EntityId>, key: EntityId)
    requires key !in ids
    requires LowerBound(ids, key) < |ids|
    ensures ids[LowerBound(ids, key)] > key
    ensures forall i :: 0 <= i < |ids| && ids[i] > key ==> LowerBound(ids, key) <= i
  {
  }

  /**
   * Ids 5 and 9 with my id 7 meet `lower_bound`'s precondition and its
   * result lands on a player, yet that player is 9: `MatchStart` adopts
   * player 9's team and `ExampleBot.Tick` player 9's power, while the
   * first-match search of the other `Tick`s finds nobody.
   */
  lemma {:induction false} MissingIdAdoptsNextPlayer(players: seq<MatchPlayer>, ticking: seq<PlayerEntity>)
    requires |players| == 2 && players[0].entity.id == 5 && players[1].entity.id == 9
    requires |ticking| == 2 && ticking[0].id == 5 && ticking[1].id == 9
    ensures Partitioned(MatchPlayerIds(players), 7) && Partitioned(PlayerIds(ticking), 7)
    ensures LowerBound(MatchPlayerIds(players), 7) == 1 && LowerBound(PlayerIds(ticking), 7) == 1
    ensures 7 !in MatchPlayerIds(players) && FindPlayer(ticking, 7).None?
  {
    var ids := MatchPlayerIds(players);
    assert ids == [5, 9];
    var tids := PlayerIds(ticking);
    assert tids == [5, 9];
    LowerBoundIsBoundary(ids, 7, 1);
    LowerBoundIsBoundary(tids, 7, 1);
  }

  /** The first position of a player with id `id`, if any. */
  function FindPlayer(players: seq<PlayerEntity>, id: EntityId): (r: Option<nat>)
    ensures r.Some? ==> r.value < |players| && players[r.value].id == id
    ensures r.Some? ==> forall k :: 0 <= k < r.value ==> players[k].id != id
    ensures r.None? <==> forall k :: 0 <= k < |players| ==> players[k].id != id
  {
    if |players| == 0 then None
    else if players[0].id == id then Some(0)
    else
      match FindPlayer(players[1..], id)
      case None => None
      case Some(k) => Some(k + 1)
  }

  // Match start

  /** Ids of the players on a team other than `team`, in input order. */
  function OtherTeams(players: seq<MatchPlayer>, team: u8): seq<EntityId>
  {
    if |players| == 0 then []
    else
      var p := players[|players| - 1];
      OtherTeams(players[..|players| - 1], team) + (if p.entity.team != team then [p.entity.id] else [])
  }

  /** The opponents are exactly the players of other teams, and no more ids than players. */
  lemma {:induction false} OtherTeamsMembers(players: seq<MatchPlayer>, team: u8, id: EntityId)
    ensures |OtherTeams(players, team)| <= |players|
    ensures id in OtherTeams(players, team) <==>
      exists i :: 0 <= i < |players| && players[i].entity.team != team && players[i].entity.id == id
  {
    if |players| > 0 {
      var init := players[..|players| - 1];
      OtherTeamsMembers(init, team, id);
      if id in OtherTeams(init, team) {
        var i :| 0 <= i < |init| && init[i].entity.team != team && init[i].entity.id == id;
        assert players[i] == init[i];
      }
      if exists i :: 0 <= i < |players| && players[i].entity.team != team && players[i].entity.id == id {
        var i :| 0 <= i < |players| && players[i].entity.team != team && players[i].entity.id == id;
        if i < |init| {
          assert init[i] == players[i];
        }
      }
    }
  }

  /**
   * The start position after looking at `slots`: the ground position of the
   * last slot owned by `me`, or `prior` when `me` owns none.
   */
  function StartOf(slots: seq<TokenSlot>, me: EntityId, prior: Position2D): Position2D
  {
    if |slots| == 0 then prior
    else
      var e := slots[|slots| - 1].entity;
      if OwnedBy(e, me) then Helpers.To2D(e.position) else StartOf(slots[..|slots| - 1], me, prior)
  }

  /** Without a slot of my own the start stays where it was. */
  lemma {:induction false} NoOwnedSlotKeepsStart(slots: seq<TokenSlot>, me: EntityId, prior: Position2D)
    requires forall i :: 0 <= i < |slots| ==> !OwnedBy(slots[i].entity, me)
    ensures StartOf(slots, me, prior) == prior
  {
    if |slots| > 0 {
      var init := slots[..|slots| - 1];
      forall k | 0 <= k < |init|
        ensures !OwnedBy(init[k].entity, me)
      {
        assert init[k] == slots[k];
      }
      NoOwnedSlotKeepsStart(init, me, prior);
    }
  }

  /** The start is the ground position of the last slot I own. */
  lemma {:induction false} StartIsLastOwnedSlot(slots: seq<TokenSlot>, me: EntityId, prior: Position2D, i: nat)
    requires i < |slots| && OwnedBy(slots[i].entity, me)
    requires forall k :: i < k < |slots| ==> !OwnedBy(slots[k].entity, me)
    ensures StartOf(slots, me, prior) == Helpers.To2D(slots[i].entity.position)
  {
    var n := |slots| - 1;
    if i < n {
      var init := slots[..n];
      assert !OwnedBy(slots[n].entity, me);
      assert init[i] == slots[i];
      forall k | i < k < |init|
        ensures !OwnedBy(init[k].entity, me)
      {
        assert init[k] == slots[k];
      }
      StartIsLastOwnedSlot(init, me, prior, i);
    }
  }

  // Tick

  /** The ids of the squads owned by `me`, in input order. */
  function Army(squads: seq<Squad>, me: EntityId): seq<EntityId>
  {
    if |squads| == 0 then []
    else
      var e := squads[|squads| - 1].entity;
      Army(squads[..|squads| - 1], me) + (if OwnedBy(e, me) then [e.id] else [])
  }

  /** An id is in the army exactly when some squad owned by `me` has it. */
  lemma {:induction false} ArmyMembers(squads: seq<Squad>, me: EntityId, id: EntityId)
    ensures |Army(squads, me)| <= |squads|
    ensures id in Army(squads, me) <==>
      exists i :: 0 <= i < |squads| && OwnedBy(squads[i].entity, me) && squads[i].entity.id == id
  {
    if |squads| > 0 {
      var init := squads[..|squads| - 1];
      ArmyMembers(init, me, id);
      if id in Army(init, me) {
        var i :| 0 <= i < |init| && OwnedBy(init[i].entity, me) && init[i].entity.id == id;
        assert squads[i] == init[i];
      }
      if exists i :: 0 <= i < |squads| && OwnedBy(squads[i].entity, me) && squads[i].entity.id == id {
        var i :| 0 <= i < |squads| && OwnedBy(squads[i].entity, me) && squads[i].entity.id == id;
        if i < |init| {
          assert init[i] == squads[i];
        }
      }
    }
  }

  /** The id of the last token slot owned by one of `opponents`, or 0 when there is none. */
  function TargetSlot(slots: seq<TokenSlot>, opponents: seq<EntityId>): EntityId
  {
    if |slots| == 0 then 0
    else
      var e := slots[|slots| - 1].entity;
      if OwnedByAnyOf(e, opponents) then e.id else TargetSlot(slots[..|slots| - 1], opponents)
  }

  /** With no slot owned by an opponent the target stays 0. */
  lemma {:induction false} NoOpponentSlotNoTarget(slots: seq<TokenSlot>, opponents: seq<EntityId>)
    requires forall i :: 0 <= i < |slots| ==> !OwnedByAnyOf(slots[i].entity, opponents)
    ensures TargetSlot(slots, opponents) == 0
  {
    if |slots| > 0 {
      var init := slots[..|slots| - 1];
      forall k | 0 <= k < |init|
        ensures !OwnedByAnyOf(init[k].entity, opponents)
      {
        assert init[k] == slots[k];
      }
      NoOpponentSlotNoTarget(init, opponents);
    }
  }

  /** The target is the id of the last slot an opponent owns. */
  lemma {:induction false} TargetIsLastOpponentSlot(slots: seq<TokenSlot>, opponents: seq<EntityId>, i: nat)
    requires i < |slots| && OwnedByAnyOf(slots[i].entity, opponents)
    requires forall k :: i < k < |slots| ==> !OwnedByAnyOf(slots[k].entity, opponents)
    ensures TargetSlot(slots, opponents) == slots[i].entity.id
  {
    var n := |slots| - 1;
    if i < n {
      var init := slots[..n];
      assert !OwnedByAnyOf(slots[n].entity, opponents);
      assert init[i] == slots[i];
      forall k | i < k < |init|
        ensures !OwnedByAnyOf(init[k].entity, opponents)
      {
        assert init[k] == slots[k];
      }
      TargetIsLastOpponentSlot(init, opponents, i);
    }
  }

  /** Power the bot needs before it spawns a squad. */
  const SpawnPower: real := 50.0

  /** Spawn the first card at the start position. */
  function Spawn(start: Position2D): Command
  {
    Command.ProduceSquad(DefaultCommandProduceSquad.(cardPosition := 0, xy := start))
  }

  /** Send the whole army against the target. */
  function Attack(army: seq<EntityId>, target: EntityId): Command
  {
    Command.GroupAttack(DefaultCommandGroupAttack.(squads := army, targetEntityId := target))
  }

  /**
   * The commands of one tick: a spawn when there is enough power, then an
   * attack when there is an army and a target.
   */
  function Orders(power: real, start: Position2D, army: seq<EntityId>, target: EntityId): seq<Command>
  {
    (if power >= SpawnPower then [Spawn(start)] else [])
    + (if |army| > 0 && target != 0 then [Attack(army, target)] else [])
  }

  /**
   * At most two commands: a spawn exactly when the power suffices, an
   * attack exactly when there is an army and a target, the spawn first, and
   * nothing else.
   */
  lemma OrdersAre(power: real, start: Position2D, army: seq<EntityId>, target: EntityId)
    ensures var v := Orders(power, start, army, target);
      && |v| <= 2
      && (Spawn(start) in v <==> power >= SpawnPower)
      && (Attack(army, target) in v <==> |army| > 0 && target != 0)
      && (forall c :: c in v ==> c == Spawn(start) || c == Attack(army, target))
      && (|v| == 2 ==> v[0] == Spawn(start) && v[1] == Attack(army, target))
  {
  }

  /** Every command the bot sends is one the game can read back from its JSON. */
  lemma OrdersTravel(power: real, start: Position2D, army: seq<EntityId>, target: EntityId)
    ensures forall c :: c in Orders(power, start, army, target) ==>
      CommandToJson(c).Ok? && GetCommand(CommandToJson(c).value) == Ok(c)
  {
    forall c | c in Orders(power, start, army, target)
      ensures CommandToJson(c).Ok? && GetCommand(CommandToJson(c).value) == Ok(c)
    {
      assert CommandEncodable(c);
      CommandRoundTrip(c, Command.Invalid);
    }
  }
}
