/**
 * The three example bots: `BasicBot` and `CExampleBot` over the C-like
 * header, `ExampleBot` over the `std::variant` header. Each keeps who it is,
 * its team, its opponents and its start position in fields that
 * `PrepareForBattle` and `MatchStart` update, and each `Tick` turns the game
 * state into commands. The loops they share are the methods at the top,
 * each proved to compute the matching `BotLogic` function.
 *
 * The C-like bots build their commands with the payload constructor of the
 * tagged struct, which always yields a consistent struct; a command is
 * therefore the `Types.Command` value that struct holds.
 */
module Bots {
  import opened Wrappers
  import opened Codec
  import opened Types
  import opened BotLogic
  import Helpers

  /**
   * The loop that looks for my player entity: the first player with id
   * `id`, or nothing.
   */
  method FindMe(players: seq<PlayerEntity>, id: EntityId) returns (me: Option<nat>)
    ensures me == FindPlayer(players, id)
  {
    me := None;
    var i := 0;
    while i < |players|
      invariant i <= |players|
      invariant forall k :: 0 <= k < i ==> players[k].id != id
    {
      if players[i].id == id {
        me := Some(i);
        break;
      }
      i := i + 1;
    }
  }

  /**
   * `std::lower_bound` by id: a binary search for the first id that is not
   * below `key`, on a range that is partitioned by `key`.
   */
  method LowerBoundSearch(ids: seq<EntityId>, key: EntityId) returns (i: nat)
    requires Partitioned(ids, key)
    ensures i == LowerBound(ids, key)
  {
    var lo, hi := 0, |ids|;
    while lo < hi
      invariant 0 <= lo <= hi <= |ids|
      invariant forall k :: 0 <= k < lo ==> ids[k] < key
      invariant forall k :: hi <= k < |ids| ==> ids[k] >= key
      decreases hi - lo
    {
      var mid := lo + (hi - lo) / 2;
      if ids[mid] < key {
        lo := mid + 1;
      } else {
        hi := mid;
      }
    }
    LowerBoundIsBoundary(ids, key, lo);
    i := lo;
  }

  /** The loop that appends, in input order, every player of another team. */
  method AppendOpponents(opponents: seq<EntityId>, players: seq<MatchPlayer>, team: u8)
    returns (r: seq<EntityId>)
    ensures r == opponents + OtherTeams(players, team)
  {
    r := opponents;
    for i := 0 to |players|
      invariant r == opponents + OtherTeams(players[..i], team)
    {
      assert players[..i + 1][..i] == players[..i];
      if players[i].entity.team != team {
        r := r + [players[i].entity.id];
      }
    }
    assert players[..|players|] == players;
  }

  /** The loop over the token slots that remembers where my last one stands. */
  method FindStart(slots: seq<TokenSlot>, me: EntityId, prior: Position2D) returns (start: Position2D)
    ensures start == StartOf(slots, me, prior)
  {
    start := prior;
    for i := 0 to |slots|
      invariant start == StartOf(slots[..i], me, prior)
    {
      assert slots[..i + 1][..i] == slots[..i];
      if slots[i].entity.playerEntityId == Some(me) {
        start := Helpers.To2D(slots[i].entity.position);
      }
    }
    assert slots[..|slots|] == slots;
  }

  /** The loop that collects my squads. */
  method CollectArmy(squads: seq<Squad>, me: EntityId) returns (army: seq<EntityId>)
    ensures army == Army(squads, me)
  {
    army := [];
    for i := 0 to |squads|
      invariant army == Army(squads[..i], me)
    {
      assert squads[..i + 1][..i] == squads[..i];
      if squads[i].entity.playerEntityId == Some(me) {
        army := army + [squads[i].entity.id];
      }
    }
    assert squads[..|squads|] == squads;
  }

  /**
   * The two nested loops that pick the target: every token slot owned by
   * some opponent overwrites the target with its id.
   */
  method ChooseTarget(slots: seq<TokenSlot>, opponents: seq<EntityId>) returns (target: EntityId)
    ensures target == TargetSlot(slots, opponents)
  {
    target := 0;
    for i := 0 to |slots|
      invariant target == TargetSlot(slots[..i], opponents)
    {
      var e := slots[i].entity;
      ghost var before := target;
      for j := 0 to |opponents|
        invariant target == (if OwnedByAnyOf(e, opponents[..j]) then e.id else before)
      {
        assert opponents[..j + 1] == opponents[..j] + [opponents[j]];
        if e.playerEntityId == Some(opponents[j]) {
          target := e.id;
        }
      }
      assert opponents[..|opponents|] == opponents;
      assert slots[..i + 1][..i] == slots[..i];
    }
    assert slots[..|slots|] == slots;
  }

  /** The end of every `Tick`: a spawn on enough power, then an attack with the army. */
  method IssueOrders(power: real, start: Position2D, army: seq<EntityId>, target: EntityId)
    returns (v: seq<Command>)
    ensures v == Orders(power, start, army, target)
  {
    v := [];
    if power >= SpawnPower {
      var spawn := DefaultCommandProduceSquad;
      spawn := spawn.(cardPosition := 0);
      spawn := spawn.(xy := start);
      v := v + [Command.ProduceSquad(spawn)];
    }
    if |army| > 0 && target != 0 {
      var attack := DefaultCommandGroupAttack;
      attack := attack.(squads := army);
      attack := attack.(targetEntityId := target);
      v := v + [Command.GroupAttack(attack)];
    }
  }

  /** The error `Tick` raises when my player entity is missing. */
  const NoPlayerEntity := "Could not find my player entity"

  /** `BasicBot` ("DumDumBot"), over the C-like header. */
  class BasicBot {
    const botName: string
    var myId: EntityId
    var myTeamId: u8
    var opponents: seq<EntityId>
    var myStart: Position2D

    constructor()
      ensures botName == "DumDumBot"
      ensures myId == 0 && myTeamId == 0 && opponents == [] && myStart == DefaultPosition2D
    {
      botName := "DumDumBot";
      myId, myTeamId, opponents, myStart := 0, 0, [], DefaultPosition2D;
    }

    /**
     * One deck, "RelaxDeck", with cover card 0, Master Archers at U3 in the
     * first place, Avatar of Frost at U3 in the second and no other card.
     */
    method DecksForMap(mapInfo: MapInfo, masterArchers: Helpers.CardTemplate, avatarOfFrost: Helpers.CardTemplate)
      returns (decks: seq<Deck>)
      ensures |decks| == 1
      ensures decks[0].name == "RelaxDeck" && decks[0].coverCardIndex == 0
      ensures decks[0].cards[0] == Helpers.CardIdWithUpgrade(masterArchers, UpgradeU3)
      ensures decks[0].cards[1] == Helpers.CardIdWithUpgrade(avatarOfFrost, UpgradeU3)
      ensures forall k :: 2 <= k < 20 ==> decks[0].cards[k] == 0
    {
      var deck := DefaultDeck;
      deck := deck.(name := "RelaxDeck");
      deck := deck.(coverCardIndex := 0);
      deck := deck.(cards := deck.cards[0 := Helpers.CardIdWithUpgrade(masterArchers, UpgradeU3)]);
      deck := deck.(cards := deck.cards[1 := Helpers.CardIdWithUpgrade(avatarOfFrost, UpgradeU3)]);
      decks := [deck];
    }

    /** Forget the opponents of the last match. */
    method PrepareForBattle(mapInfo: MapInfo, deck: Deck)
      modifies this
      ensures opponents == []
      ensures myId == old(myId) && myTeamId == old(myTeamId) && myStart == old(myStart)
    {
      opponents := [];
    }

    /**
     * Learn my id and my team (from the player `lower_bound` finds), append
     * the players of the other teams to the opponents, and start at my last
     * token slot, if I own one.
     */
    method MatchStart(state: GameStartState)
      requires Partitioned(MatchPlayerIds(state.players), state.yourPlayerId)
      requires LowerBound(MatchPlayerIds(state.players), state.yourPlayerId) < |state.players|
      modifies this
      ensures myId == state.yourPlayerId
      ensures myTeamId == state.players[LowerBound(MatchPlayerIds(state.players), state.yourPlayerId)].entity.team
      ensures opponents == old(opponents) + OtherTeams(state.players, myTeamId)
      ensures myStart == StartOf(state.entities.tokenSlots, myId, old(myStart))
    {
      myId := state.yourPlayerId;
      var me := LowerBoundSearch(MatchPlayerIds(state.players), myId);
      myTeamId := state.players[me].entity.team;
      opponents := AppendOpponents(opponents, state.players, myTeamId);
      myStart := FindStart(state.entities.tokenSlots, myId, myStart);
    }

    /**
     * Fail when no player has my id; otherwise spawn on 50 power and send
     * my army against the last token slot an opponent owns.
     */
    method Tick(state: GameState) returns (r: Result<seq<Command>, string>)
      ensures FindPlayer(state.players, myId).None? ==> r == Err(NoPlayerEntity)
      ensures FindPlayer(state.players, myId).Some? ==>
        r == Ok(Orders(state.players[FindPlayer(state.players, myId).value].power, myStart,
                       Army(state.entities.squads, myId), TargetSlot(state.entities.tokenSlots, opponents)))
    {
      var me := FindMe(state.players, myId);
      if me.None? {
        return Err(NoPlayerEntity);
      }
      var myPower := state.players[me.value].power;
      var myArmy := CollectArmy(state.entities.squads, myId);
      var target := ChooseTarget(state.entities.tokenSlots, opponents);
      var v := IssueOrders(myPower, myStart, myArmy, target);
      return Ok(v);
    }
  }

  /** `CExampleBot` ("CppExampleBot"), over the C-like header. */
  class CExampleBot {
    const botName: string
    var myId: EntityId
    var myTeamId: u8
    var opponents: seq<EntityId>
    var myStart: Position2D

    constructor()
      ensures botName == "CppExampleBot"
      ensures myId == 0 && myTeamId == 0 && opponents == [] && myStart == DefaultPosition2D
    {
      botName := "CppExampleBot";
      myId, myTeamId, opponents, myStart := 0, 0, [], DefaultPosition2D;
    }

    /** One deck, "TestDeck", with cover card 0 and only Master Archers at U3. */
    method DecksForMap(mapInfo: MapInfo, masterArchers: Helpers.CardTemplate) returns (decks: seq<Deck>)
      ensures |decks| == 1
      ensures decks[0].name == "TestDeck" && decks[0].coverCardIndex == 0
      ensures decks[0].cards[0] == Helpers.CardIdWithUpgrade(masterArchers, UpgradeU3)
      ensures forall k :: 1 <= k < 20 ==> decks[0].cards[k] == 0
    {
      var deck := DefaultDeck;
      deck := deck.(name := "TestDeck");
      deck := deck.(coverCardIndex := 0);
      deck := deck.(cards := deck.cards[0 := Helpers.CardIdWithUpgrade(masterArchers, UpgradeU3)]);
      decks := [deck];
    }

    /** Forget the opponents of the last match. */
    method PrepareForBattle(mapInfo: MapInfo, deck: Deck)
      modifies this
      ensures opponents == []
      ensures myId == old(myId) && myTeamId == old(myTeamId) && myStart == old(myStart)
    {
      opponents := [];
    }

    /** As `BasicBot.MatchStart`. */
    method MatchStart(state: GameStartState)
      requires Partitioned(MatchPlayerIds(state.players), state.yourPlayerId)
      requires LowerBound(MatchPlayerIds(state.players), state.yourPlayerId) < |state.players|
      modifies this
      ensures myId == state.yourPlayerId
      ensures myTeamId == state.players[LowerBound(MatchPlayerIds(state.players), state.yourPlayerId)].entity.team
      ensures opponents == old(opponents) + OtherTeams(state.players, myTeamId)
      ensures myStart == StartOf(state.entities.tokenSlots, myId, old(myStart))
    {
      myId := state.yourPlayerId;
      var me := LowerBoundSearch(MatchPlayerIds(state.players), myId);
      myTeamId := state.players[me].entity.team;
      opponents := AppendOpponents(opponents, state.players, myTeamId);
      myStart := FindStart(state.entities.tokenSlots, myId, myStart);
    }

    /** As `BasicBot.Tick`. */
    method Tick(state: GameState) returns (r: Result<seq<Command>, string>)
      ensures FindPlayer(state.players, myId).None? ==> r == Err(NoPlayerEntity)
      ensures FindPlayer(state.players, myId).Some? ==>
        r == Ok(Orders(state.players[FindPlayer(state.players, myId).value].power, myStart,
                       Army(state.entities.squads, myId), TargetSlot(state.entities.tokenSlots, opponents)))
    {
      var me := FindMe(state.players, myId);
      if me.None? {
        return Err(NoPlayerEntity);
      }
      var myPower := state.players[me.value].power;
      var myArmy := CollectArmy(state.entities.squads, myId);
      var target := ChooseTarget(state.entities.tokenSlots, opponents);
      var v := IssueOrders(myPower, myStart, myArmy, target);
      return Ok(v);
    }
  }

  /** `ExampleBot` ("CppExampleBot"), over the `std::variant` header. */
  class ExampleBot {
    const botName: string
    var myId: EntityId
    var myTeamId: u8
    var opponents: seq<EntityId>
    var myStart: Position2D

    constructor()
      ensures botName == "CppExampleBot"
      ensures myId == 0 && myTeamId == 0 && opponents == [] && myStart == DefaultPosition2D
    {
      botName := "CppExampleBot";
      myId, myTeamId, opponents, myStart := 0, 0, [], DefaultPosition2D;
    }

    /** One deck, "TestDeck", with cover card 0 and only Master Archers at U3. */
    method DecksForMap(mapInfo: MapInfo, masterArchers: Helpers.CardTemplate) returns (decks: seq<Deck>)
      ensures |decks| == 1
      ensures decks[0].name == "TestDeck" && decks[0].coverCardIndex == 0
      ensures decks[0].cards[0] == Helpers.CardIdWithUpgrade(masterArchers, UpgradeU3)
      ensures forall k :: 1 <= k < 20 ==> decks[0].cards[k] == 0
    {
      var deck := DefaultDeck;
      deck := deck.(name := "TestDeck");
      deck := deck.(coverCardIndex := 0);
      deck := deck.(cards := deck.cards[0 := Helpers.CardIdWithUpgrade(masterArchers, UpgradeU3)]);
      decks := [deck];
    }

    /** Forget the opponents of the last match. */
    method PrepareForBattle(mapInfo: MapInfo, deck: Deck)
      modifies this
      ensures opponents == []
      ensures myId == old(myId) && myTeamId == old(myTeamId) && myStart == old(myStart)
    {
      opponents := [];
    }

    /** As `BasicBot.MatchStart`. */
    method MatchStart(state: GameStartState)
      requires Partitioned(MatchPlayerIds(state.players), state.yourPlayerId)
      requires LowerBound(MatchPlayerIds(state.players), state.yourPlayerId) < |state.players|
      modifies this
      ensures myId == state.yourPlayerId
      ensures myTeamId == state.players[LowerBound(MatchPlayerIds(state.players), state.yourPlayerId)].entity.team
      ensures opponents == old(opponents) + OtherTeams(state.players, myTeamId)
      ensures myStart == StartOf(state.entities.tokenSlots, myId, old(myStart))
    {
      myId := state.yourPlayerId;
      var me := LowerBoundSearch(MatchPlayerIds(state.players), myId);
      myTeamId := state.players[me].entity.team;
      opponents := AppendOpponents(opponents, state.players, myTeamId);
      myStart := FindStart(state.entities.tokenSlots, myId, myStart);
    }

    /**
     * Locate me with `lower_bound`, which has no failure path: the players
     * must be partitioned by my id and the search must land on a player.
     * Then spawn and attack as the other bots do.
     */
    method Tick(state: GameState) returns (v: seq<Command>)
      requires Partitioned(PlayerIds(state.players), myId)
      requires LowerBound(PlayerIds(state.players), myId) < |state.players|
      ensures v == Orders(state.players[LowerBound(PlayerIds(state.players), myId)].power, myStart,
                          Army(state.entities.squads, myId), TargetSlot(state.entities.tokenSlots, opponents))
    {
      var me := LowerBoundSearch(PlayerIds(state.players), myId);
      var myPower := state.players[me].power;
      var myArmy := CollectArmy(state.entities.squads, myId);
      var target := ChooseTarget(state.entities.tokenSlots, opponents);
      v := IssueOrders(myPower, myStart, myArmy, target);
    }
  }
}
