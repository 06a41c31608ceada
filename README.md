# Battleforge AI bot API: the message catalog, its JSON codec and the example bots

The system is a C++ API for bots that play Battleforge. The game and a bot
exchange JSON messages. Each message is either a record or a tagged union of
records. A record is an object with one key per field. A tagged union holds
one case and is written as a one-key object that maps the case's label to
its payload.

The API comes in two forms that share one wire format:

- `API/Types.hpp` declares every message with `std::variant` unions and
  hand-written `to_json`/`from_json` functions.
- `API/TypesCLike.hpp` declares the same messages as C-like structs. Each
  struct holds a case tag and a C `union`. Its constructors and assignment
  clear the struct with `memset` and then write one payload in place.

Small helpers build card ids and project 3D positions onto the map. One
function prints why the game rejected a command. Three example bots use the
API: `BasicBot`, `ExampleBot` and its C-like twin. Each bot finds its player,
its opponents and its start slot, then issues at most two commands per tick:

- a spawn, once it has 50 power;
- an attack on the last opponent token slot, once it has squads.

The model has these modules:

- `Json` is the JSON value the codec works on. Objects keep their members
  sorted by key, as nlohmann's default object does. `Put` is `j[key] = v`,
  and `Items` is `j.items()`.
- `Codec` holds the pieces every encoder and decoder shares:
  - the numeric, boolean and string conversions;
  - `j.at(key)` and optional fields;
  - arrays and fixed-size arrays;
  - the first-item case selection of every union decoder.
- `Types` covers the whole catalog of `Types.hpp`. Each record and union has
  an encoder, a decoder that fills in a prior value as `from_json` does, and
  `get<T>()`, which starts from the default value. A round-trip lemma is
  proved for each of them.
- `TypesCLike` models the C-like tagged struct as a class over one family of
  cases, with its constructors, copy, assignment, `to_json` and `from_json`.
  `CLikeFamilies` proves that each of the nine C-like unions writes the labels
  of the `std::variant` form and meets what the struct relies on.
- `Helpers` models `CardIdWithUpgrade` and `to2D`. `DebugPrint` models the
  rejection message. `Text` renders numbers as the stream prints them.
- `BotLogic` states once, as functions, what the bots decide. `Bots` holds
  the three bot classes. Their methods use the source's loops and are proved
  equal to those functions.

## Model

| member | source | states |
|---|---|---|
| Types.PositionRoundTrip | API/Types.hpp:78-84 | every `Position` encodes as an object, and `get<Position>()` of that object gives back the same record |
| Types.Position2DRoundTrip | API/Types.hpp:86-90 | every `Position2D` encodes as an object, and `get<Position2D>()` of that object gives back the same record |
| Types.Position2DSeqRoundTrip | API/Types.hpp:86-90 | a list of `Position2D` values (a `std::vector` field) encodes as an array and decodes back element for element |
| Types.Position2DWithOrientationRoundTrip | API/Types.hpp:92-99 | every `Position2DWithOrientation` encodes as an object, and `get<Position2DWithOrientation>()` of that object gives back the same record |
| Types.Position2DWithOrientationSeqRoundTrip | API/Types.hpp:92-99 | a list of `Position2DWithOrientation` values (a `std::vector` field) encodes as an array and decodes back element for element |
| Types.SingleTargetSingleEntityRoundTrip | API/Types.hpp:121-124 | every `SingleTargetSingleEntity` encodes as an object, and `get<SingleTargetSingleEntity>()` of that object gives back the same record |
| Types.SingleTargetLocationRoundTrip | API/Types.hpp:126-129 | every `SingleTargetLocation` encodes as an object, and `get<SingleTargetLocation>()` of that object gives back the same record |
| Types.TargetSingleRoundTrip | API/Types.hpp:151-154 | `TargetSingle` encodes exactly when every tagged union inside it holds a valid case, always as an object, and `get<TargetSingle>()` of that object gives back the same record |
| Types.TargetMultiRoundTrip | API/Types.hpp:155-159 | every `TargetMulti` encodes as an object, and `get<TargetMulti>()` of that object gives back the same record |
| Types.CommunityMapInfoRoundTrip | API/Types.hpp:190-196 | every `CommunityMapInfo` encodes as an object, and `get<CommunityMapInfo>()` of that object gives back the same record |
| Types.MapInfoRoundTrip | API/Types.hpp:199-216 | every `MapInfo` encodes as an object, and `get<MapInfo>()` of that object gives back the same record |
| Types.DeckRoundTrip | API/Types.hpp:218-228 | every `Deck` encodes as an object, and `get<Deck>()` of that object gives back the same record |
| Types.DeckSeqRoundTrip | API/Types.hpp:218-228 | a list of `Deck` values (a `std::vector` field) encodes as an array and decodes back element for element |
| Types.AreaShapeCircleRoundTrip | API/Types.hpp:442-446 | every `AreaShapeCircle` encodes as an object, and `get<AreaShapeCircle>()` of that object gives back the same record |
| Types.AreaShapeConeRoundTrip | API/Types.hpp:447-452 | every `AreaShapeCone` encodes as an object, and `get<AreaShapeCone>()` of that object gives back the same record |
| Types.AreaShapeConeCutRoundTrip | API/Types.hpp:453-461 | every `AreaShapeConeCut` encodes as an object, and `get<AreaShapeConeCut>()` of that object gives back the same record |
| Types.AreaShapeWideLineRoundTrip | API/Types.hpp:462-467 | every `AreaShapeWideLine` encodes as an object, and `get<AreaShapeWideLine>()` of that object gives back the same record |
| Types.AbilityEffectSpecificDamageAreaRoundTrip | API/Types.hpp:492-498 | `AbilityEffectSpecificDamageArea` encodes exactly when every tagged union inside it holds a valid case, always as an object, and `get<AbilityEffectSpecificDamageArea>()` of that object gives back the same record |
| Types.AbilityEffectSpecificDamageOverTimeRoundTrip | API/Types.hpp:499-504 | every `AbilityEffectSpecificDamageOverTime` encodes as an object, and `get<AbilityEffectSpecificDamageOverTime>()` of that object gives back the same record |
| Types.AbilityEffectSpecificLinkedFireRoundTrip | API/Types.hpp:505-512 | every `AbilityEffectSpecificLinkedFire` encodes as an object, and `get<AbilityEffectSpecificLinkedFire>()` of that object gives back the same record |
| Types.AbilityEffectSpecificSpellOnEntityNearbyRoundTrip | API/Types.hpp:513-519 | every `AbilityEffectSpecificSpellOnEntityNearby` encodes as an object, and `get<AbilityEffectSpecificSpellOnEntityNearby>()` of that object gives back the same record |
| Types.AbilityEffectSpecificTimedSpellRoundTrip | API/Types.hpp:520-523 | every `AbilityEffectSpecificTimedSpell` encodes as an object, and `get<AbilityEffectSpecificTimedSpell>()` of that object gives back the same record |
| Types.AbilityEffectSpecificCollectorRoundTrip | API/Types.hpp:524-528 | every `AbilityEffectSpecificCollector` encodes as an object, and `get<AbilityEffectSpecificCollector>()` of that object gives back the same record |
| Types.AbilityEffectSpecificAuraRoundTrip | API/Types.hpp:529-534 | every `AbilityEffectSpecificAura` encodes as an object, and `get<AbilityEffectSpecificAura>()` of that object gives back the same record |
| Types.AbilityEffectSpecificMovingIntervalCastRoundTrip | API/Types.hpp:535-540 | every `AbilityEffectSpecificMovingIntervalCast` encodes as an object, and `get<AbilityEffectSpecificMovingIntervalCast>()` of that object gives back the same record |
| Types.AbilityEffectRoundTrip | API/Types.hpp:583-617 | `AbilityEffect` encodes exactly when every tagged union inside it holds a valid case, always as an object, and `get<AbilityEffect>()` of that object gives back the same record |
| Types.AbilityEffectSeqRoundTrip | API/Types.hpp:583-617 | a list of `AbilityEffect` values (a `std::vector` field) encodes exactly when every element does, and then decodes back element for element |
| Types.MountStateMountingSquadRoundTrip | API/Types.hpp:628-631 | every `MountStateMountingSquad` encodes as an object, and `get<MountStateMountingSquad>()` of that object gives back the same record |
| Types.MountStateMountingFigureRoundTrip | API/Types.hpp:633-637 | every `MountStateMountingFigure` encodes as an object, and `get<MountStateMountingFigure>()` of that object gives back the same record |
| Types.MountStateMountedSquadRoundTrip | API/Types.hpp:639-642 | every `MountStateMountedSquad` encodes as an object, and `get<MountStateMountedSquad>()` of that object gives back the same record |
| Types.MountStateMountedFigureRoundTrip | API/Types.hpp:644-648 | every `MountStateMountedFigure` encodes as an object, and `get<MountStateMountedFigure>()` of that object gives back the same record |
| Types.MountStateUnknownRoundTrip | API/Types.hpp:650-657 | every `MountStateUnknown` encodes as an object, and `get<MountStateUnknown>()` of that object gives back the same record |
| Types.AspectPowerProductionRoundTrip | API/Types.hpp:688-694 | every `AspectPowerProduction` encodes as an object, and `get<AspectPowerProduction>()` of that object gives back the same record |
| Types.AspectHealthRoundTrip | API/Types.hpp:696-702 | every `AspectHealth` encodes as an object, and `get<AspectHealth>()` of that object gives back the same record |
| Types.AspectModeChangeRoundTrip | API/Types.hpp:710-714 | every `AspectModeChange` encodes as an object, and `get<AspectModeChange>()` of that object gives back the same record |
| Types.AspectMountBarrierRoundTrip | API/Types.hpp:778-781 | `AspectMountBarrier` encodes exactly when every tagged union inside it holds a valid case, always as an object, and `get<AspectMountBarrier>()` of that object gives back the same record |
| Types.AspectBarrierGateRoundTrip | API/Types.hpp:803-806 | every `AspectBarrierGate` encodes as an object, and `get<AspectBarrierGate>()` of that object gives back the same record |
| Types.AspectConstructionDataRoundTrip | API/Types.hpp:829-839 | every `AspectConstructionData` encodes as an object, and `get<AspectConstructionData>()` of that object gives back the same record |
| Types.OrbsRoundTrip | API/Types.hpp:966-978 | every `Orbs` encodes as an object, and `get<Orbs>()` of that object gives back the same record |
| Types.PlayerEntityRoundTrip | API/Types.hpp:982-996 | `PlayerEntity` encodes exactly when every tagged union inside it holds a valid case, always as an object, and `get<PlayerEntity>()` of that object gives back the same record |
| Types.PlayerEntitySeqRoundTrip | API/Types.hpp:982-996 | a list of `PlayerEntity` values (a `std::vector` field) encodes exactly when every element does, and then decodes back element for element |
| Types.MatchPlayerRoundTrip | API/Types.hpp:998-1007 | `MatchPlayer` encodes exactly when every tagged union inside it holds a valid case, always as an object, and `get<MatchPlayer>()` of that object gives back the same record |
| Types.MatchPlayerSeqRoundTrip | API/Types.hpp:998-1007 | a list of `MatchPlayer` values (a `std::vector` field) encodes exactly when every element does, and then decodes back element for element |
| Types.JobGotoRoundTrip | API/Types.hpp:1023-1041 | every `JobGoto` encodes as an object, and `get<JobGoto>()` of that object gives back the same record |
| Types.JobAttackMeleeRoundTrip | API/Types.hpp:1042-1048 | `JobAttackMelee` encodes exactly when every tagged union inside it holds a valid case, always as an object, and `get<JobAttackMelee>()` of that object gives back the same record |
| Types.JobCastSpellRoundTrip | API/Types.hpp:1049-1055 | `JobCastSpell` encodes exactly when every tagged union inside it holds a valid case, always as an object, and `get<JobCastSpell>()` of that object gives back the same record |
| Types.JobTalkRoundTrip | API/Types.hpp:1063-1067 | every `JobTalk` encodes as an object, and `get<JobTalk>()` of that object gives back the same record |
| Types.JobScriptTalkRoundTrip | API/Types.hpp:1068-1071 | every `JobScriptTalk` encodes as an object, and `get<JobScriptTalk>()` of that object gives back the same record |
| Types.JobFreezeRoundTrip | API/Types.hpp:1072-1084 | every `JobFreeze` encodes as an object, and `get<JobFreeze>()` of that object gives back the same record |
| Types.JobSpawnRoundTrip | API/Types.hpp:1085-1089 | every `JobSpawn` encodes as an object, and `get<JobSpawn>()` of that object gives back the same record |
| Types.JobAttackSquadRoundTrip | API/Types.hpp:1097-1139 | `JobAttackSquad` encodes exactly when every tagged union inside it holds a valid case, always as an object, and `get<JobAttackSquad>()` of that object gives back the same record |
| Types.JobCastSpellSquadRoundTrip | API/Types.hpp:1140-1148 | `JobCastSpellSquad` encodes exactly when every tagged union inside it holds a valid case, always as an object, and `get<JobCastSpellSquad>()` of that object gives back the same record |
| Types.JobPushBackRoundTrip | API/Types.hpp:1149-1180 | every `JobPushBack` encodes as an object, and `get<JobPushBack>()` of that object gives back the same record |
| Types.JobStampedeRoundTrip | API/Types.hpp:1181-1186 | `JobStampede` encodes exactly when every tagged union inside it holds a valid case, always as an object, and `get<JobStampede>()` of that object gives back the same record |
| Types.JobFlameThrowerRoundTrip | API/Types.hpp:1201-1207 | `JobFlameThrower` encodes exactly when every tagged union inside it holds a valid case, always as an object, and `get<JobFlameThrower>()` of that object gives back the same record |
| Types.JobConstructRoundTrip | API/Types.hpp:1208-1212 | every `JobConstruct` encodes as an object, and `get<JobConstruct>()` of that object gives back the same record |
| Types.JobCrushRoundTrip | API/Types.hpp:1213-1218 | every `JobCrush` encodes as an object, and `get<JobCrush>()` of that object gives back the same record |
| Types.JobMountBarrierSquadRoundTrip | API/Types.hpp:1219-1222 | every `JobMountBarrierSquad` encodes as an object, and `get<JobMountBarrierSquad>()` of that object gives back the same record |
| Types.JobMountBarrierRoundTrip | API/Types.hpp:1223-1242 | every `JobMountBarrier` encodes (with neither module set, as `null`), and `get<JobMountBarrier>()` of the result gives back the same record |
| Types.JobModeChangeSquadRoundTrip | API/Types.hpp:1243-1247 | every `JobModeChangeSquad` encodes as an object, and `get<JobModeChangeSquad>()` of that object gives back the same record |
| Types.JobModeChangeRoundTrip | API/Types.hpp:1248-1251 | every `JobModeChange` encodes as an object, and `get<JobModeChange>()` of that object gives back the same record |
| Types.JobSacrificeSquadRoundTrip | API/Types.hpp:1252-1255 | every `JobSacrificeSquad` encodes as an object, and `get<JobSacrificeSquad>()` of that object gives back the same record |
| Types.JobUsePortalSquadRoundTrip | API/Types.hpp:1256-1259 | every `JobUsePortalSquad` encodes as an object, and `get<JobUsePortalSquad>()` of that object gives back the same record |
| Types.JobChannelRoundTrip | API/Types.hpp:1260-1329 | every `JobChannel` encodes as an object, and `get<JobChannel>()` of that object gives back the same record |
| Types.JobLootTargetSquadRoundTrip | API/Types.hpp:1337-1340 | every `JobLootTargetSquad` encodes as an object, and `get<JobLootTargetSquad>()` of that object gives back the same record |
| Types.JobMorphRoundTrip | API/Types.hpp:1341-1345 | `JobMorph` encodes exactly when every tagged union inside it holds a valid case, always as an object, and `get<JobMorph>()` of that object gives back the same record |
| Types.JobUnknownRoundTrip | API/Types.hpp:1347-1350 | every `JobUnknown` encodes as an object, and `get<JobUnknown>()` of that object gives back the same record |
| Types.EntityRoundTrip | API/Types.hpp:1441-1474 | `Entity` encodes exactly when every tagged union inside it holds a valid case, always as an object, and `get<Entity>()` of that object gives back the same record |
| Types.ProjectileRoundTrip | API/Types.hpp:1476-1482 | every `Projectile` encodes as an object, and `get<Projectile>()` of that object gives back the same record |
| Types.ProjectileSeqRoundTrip | API/Types.hpp:1476-1482 | a list of `Projectile` values (a `std::vector` field) encodes as an array and decodes back element for element |
| Types.PowerSlotRoundTrip | API/Types.hpp:1484-1490 | `PowerSlot` encodes exactly when every tagged union inside it holds a valid case, always as an object, and `get<PowerSlot>()` of that object gives back the same record |
| Types.PowerSlotSeqRoundTrip | API/Types.hpp:1484-1490 | a list of `PowerSlot` values (a `std::vector` field) encodes exactly when every element does, and then decodes back element for element |
| Types.TokenSlotRoundTrip | API/Types.hpp:1492-1496 | `TokenSlot` encodes exactly when every tagged union inside it holds a valid case, always as an object, and `get<TokenSlot>()` of that object gives back the same record |
| Types.TokenSlotSeqRoundTrip | API/Types.hpp:1492-1496 | a list of `TokenSlot` values (a `std::vector` field) encodes exactly when every element does, and then decodes back element for element |
| Types.AbilityWorldObjectRoundTrip | API/Types.hpp:1498-1501 | `AbilityWorldObject` encodes exactly when every tagged union inside it holds a valid case, always as an object, and `get<AbilityWorldObject>()` of that object gives back the same record |
| Types.AbilityWorldObjectSeqRoundTrip | API/Types.hpp:1498-1501 | a list of `AbilityWorldObject` values (a `std::vector` field) encodes exactly when every element does, and then decodes back element for element |
| Types.SquadRoundTrip | API/Types.hpp:1503-1512 | `Squad` encodes exactly when every tagged union inside it holds a valid case, always as an object, and `get<Squad>()` of that object gives back the same record |
| Types.SquadSeqRoundTrip | API/Types.hpp:1503-1512 | a list of `Squad` values (a `std::vector` field) encodes exactly when every element does, and then decodes back element for element |
| Types.FigureRoundTrip | API/Types.hpp:1514-1522 | `Figure` encodes exactly when every tagged union inside it holds a valid case, always as an object, and `get<Figure>()` of that object gives back the same record |
| Types.FigureSeqRoundTrip | API/Types.hpp:1514-1522 | a list of `Figure` values (a `std::vector` field) encodes exactly when every element does, and then decodes back element for element |
| Types.BuildingRoundTrip | API/Types.hpp:1524-1530 | `Building` encodes exactly when every tagged union inside it holds a valid case, always as an object, and `get<Building>()` of that object gives back the same record |
| Types.BuildingSeqRoundTrip | API/Types.hpp:1524-1530 | a list of `Building` values (a `std::vector` field) encodes exactly when every element does, and then decodes back element for element |
| Types.BarrierSetRoundTrip | API/Types.hpp:1532-1535 | `BarrierSet` encodes exactly when every tagged union inside it holds a valid case, always as an object, and `get<BarrierSet>()` of that object gives back the same record |
| Types.BarrierSetSeqRoundTrip | API/Types.hpp:1532-1535 | a list of `BarrierSet` values (a `std::vector` field) encodes exactly when every element does, and then decodes back element for element |
| Types.BarrierModuleRoundTrip | API/Types.hpp:1537-1546 | `BarrierModule` encodes exactly when every tagged union inside it holds a valid case, always as an object, and `get<BarrierModule>()` of that object gives back the same record |
| Types.BarrierModuleSeqRoundTrip | API/Types.hpp:1537-1546 | a list of `BarrierModule` values (a `std::vector` field) encodes exactly when every element does, and then decodes back element for element |
| Types.CommandBuildHouseRoundTrip | API/Types.hpp:1549-1555 | every `CommandBuildHouse` encodes as an object, and `get<CommandBuildHouse>()` of that object gives back the same record |
| Types.CommandCastSpellGodRoundTrip | API/Types.hpp:1557-1561 | `CommandCastSpellGod` encodes exactly when every tagged union inside it holds a valid case, always as an object, and `get<CommandCastSpellGod>()` of that object gives back the same record |
| Types.CommandCastSpellGodMultiRoundTrip | API/Types.hpp:1563-1568 | every `CommandCastSpellGodMulti` encodes as an object, and `get<CommandCastSpellGodMulti>()` of that object gives back the same record |
| Types.CommandProduceSquadRoundTrip | API/Types.hpp:1570-1574 | every `CommandProduceSquad` encodes as an object, and `get<CommandProduceSquad>()` of that object gives back the same record |
| Types.CommandProduceSquadOnBarrierRoundTrip | API/Types.hpp:1576-1583 | every `CommandProduceSquadOnBarrier` encodes as an object, and `get<CommandProduceSquadOnBarrier>()` of that object gives back the same record |
| Types.CommandCastSpellEntityRoundTrip | API/Types.hpp:1585-1590 | `CommandCastSpellEntity` encodes exactly when every tagged union inside it holds a valid case, always as an object, and `get<CommandCastSpellEntity>()` of that object gives back the same record |
| Types.CommandBarrierGateToggleRoundTrip | API/Types.hpp:1592-1595 | every `CommandBarrierGateToggle` encodes as an object, and `get<CommandBarrierGateToggle>()` of that object gives back the same record |
| Types.CommandBarrierBuildRoundTrip | API/Types.hpp:1597-1601 | every `CommandBarrierBuild` encodes as an object, and `get<CommandBarrierBuild>()` of that object gives back the same record |
| Types.CommandBarrierRepairRoundTrip | API/Types.hpp:1603-1606 | every `CommandBarrierRepair` encodes as an object, and `get<CommandBarrierRepair>()` of that object gives back the same record |
| Types.CommandBarrierCancelRepairRoundTrip | API/Types.hpp:1607-1610 | every `CommandBarrierCancelRepair` encodes as an object, and `get<CommandBarrierCancelRepair>()` of that object gives back the same record |
| Types.CommandRepairBuildingRoundTrip | API/Types.hpp:1611-1614 | every `CommandRepairBuilding` encodes as an object, and `get<CommandRepairBuilding>()` of that object gives back the same record |
| Types.CommandCancelRepairBuildingRoundTrip | API/Types.hpp:1615-1618 | every `CommandCancelRepairBuilding` encodes as an object, and `get<CommandCancelRepairBuilding>()` of that object gives back the same record |
| Types.CommandGroupAttackRoundTrip | API/Types.hpp:1619-1624 | every `CommandGroupAttack` encodes as an object, and `get<CommandGroupAttack>()` of that object gives back the same record |
| Types.CommandGroupEnterWallRoundTrip | API/Types.hpp:1625-1629 | every `CommandGroupEnterWall` encodes as an object, and `get<CommandGroupEnterWall>()` of that object gives back the same record |
| Types.CommandGroupExitWallRoundTrip | API/Types.hpp:1630-1634 | every `CommandGroupExitWall` encodes as an object, and `get<CommandGroupExitWall>()` of that object gives back the same record |
| Types.CommandGroupGotoRoundTrip | API/Types.hpp:1635-1641 | every `CommandGroupGoto` encodes as an object, and `get<CommandGroupGoto>()` of that object gives back the same record |
| Types.CommandGroupHoldPositionRoundTrip | API/Types.hpp:1642-1645 | every `CommandGroupHoldPosition` encodes as an object, and `get<CommandGroupHoldPosition>()` of that object gives back the same record |
| Types.CommandGroupStopJobRoundTrip | API/Types.hpp:1646-1649 | every `CommandGroupStopJob` encodes as an object, and `get<CommandGroupStopJob>()` of that object gives back the same record |
| Types.CommandModeChangeRoundTrip | API/Types.hpp:1650-1654 | every `CommandModeChange` encodes as an object, and `get<CommandModeChange>()` of that object gives back the same record |
| Types.CommandPowerSlotBuildRoundTrip | API/Types.hpp:1655-1658 | every `CommandPowerSlotBuild` encodes as an object, and `get<CommandPowerSlotBuild>()` of that object gives back the same record |
| Types.CommandTokenSlotBuildRoundTrip | API/Types.hpp:1659-1663 | every `CommandTokenSlotBuild` encodes as an object, and `get<CommandTokenSlotBuild>()` of that object gives back the same record |
| Types.CommandGroupKillEntityRoundTrip | API/Types.hpp:1664-1667 | every `CommandGroupKillEntity` encodes as an object, and `get<CommandGroupKillEntity>()` of that object gives back the same record |
| Types.CommandGroupSacrificeRoundTrip | API/Types.hpp:1668-1672 | every `CommandGroupSacrifice` encodes as an object, and `get<CommandGroupSacrifice>()` of that object gives back the same record |
| Types.CommandPortalDefineExitPointRoundTrip | API/Types.hpp:1673-1677 | every `CommandPortalDefineExitPoint` encodes as an object, and `get<CommandPortalDefineExitPoint>()` of that object gives back the same record |
| Types.CommandPortalRemoveExitPointRoundTrip | API/Types.hpp:1678-1681 | every `CommandPortalRemoveExitPoint` encodes as an object, and `get<CommandPortalRemoveExitPoint>()` of that object gives back the same record |
| Types.CommandTunnelMakeExitPointRoundTrip | API/Types.hpp:1682-1685 | every `CommandTunnelMakeExitPoint` encodes as an object, and `get<CommandTunnelMakeExitPoint>()` of that object gives back the same record |
| Types.CommandPingRoundTrip | API/Types.hpp:1686-1690 | every `CommandPing` encodes as an object, and `get<CommandPing>()` of that object gives back the same record |
| Types.CommandWhisperToMasterRoundTrip | API/Types.hpp:1698-1701 | every `CommandWhisperToMaster` encodes as an object, and `get<CommandWhisperToMaster>()` of that object gives back the same record |
| Types.PlayerCommandRoundTrip | API/Types.hpp:1779-1783 | `PlayerCommand` encodes exactly when every tagged union inside it holds a valid case, always as an object, and `get<PlayerCommand>()` of that object gives back the same record |
| Types.PlayerCommandSeqRoundTrip | API/Types.hpp:1779-1783 | a list of `PlayerCommand` values (a `std::vector` field) encodes exactly when every element does, and then decodes back element for element |
| Types.CommandRejectionReasonCardRejectedRoundTrip | API/Types.hpp:1797-1801 | every `CommandRejectionReasonCardRejected` encodes as an object, and `get<CommandRejectionReasonCardRejected>()` of that object gives back the same record |
| Types.CommandRejectionReasonNotEnoughPowerRoundTrip | API/Types.hpp:1803-1807 | every `CommandRejectionReasonNotEnoughPower` encodes as an object, and `get<CommandRejectionReasonNotEnoughPower>()` of that object gives back the same record |
| Types.CommandRejectionReasonInvalidEntityTypeRoundTrip | API/Types.hpp:1825-1828 | every `CommandRejectionReasonInvalidEntityType` encodes as an object, and `get<CommandRejectionReasonInvalidEntityType>()` of that object gives back the same record |
| Types.CommandRejectionReasonCanNotCastRoundTrip | API/Types.hpp:1830-1833 | every `CommandRejectionReasonCanNotCast` encodes as an object, and `get<CommandRejectionReasonCanNotCast>()` of that object gives back the same record |
| Types.RejectedCommandRoundTrip | API/Types.hpp:1934-1939 | `RejectedCommand` encodes exactly when every tagged union inside it holds a valid case, always as an object, and `get<RejectedCommand>()` of that object gives back the same record |
| Types.RejectedCommandSeqRoundTrip | API/Types.hpp:1934-1939 | a list of `RejectedCommand` values (a `std::vector` field) encodes exactly when every element does, and then decodes back element for element |
| Types.AiForMapRoundTrip | API/Types.hpp:1942-1949 | every `AiForMap` encodes as an object, and `get<AiForMap>()` of that object gives back the same record |
| Types.MapEntitiesRoundTrip | API/Types.hpp:1951-1962 | `MapEntities` encodes exactly when every tagged union inside it holds a valid case, always as an object, and `get<MapEntities>()` of that object gives back the same record |
| Types.GameStartStateRoundTrip | API/Types.hpp:1965-1973 | `GameStartState` encodes exactly when every tagged union inside it holds a valid case, always as an object, and `get<GameStartState>()` of that object gives back the same record |
| Types.GameStateRoundTrip | API/Types.hpp:1976-1989 | `GameState` encodes exactly when every tagged union inside it holds a valid case, always as an object, and `get<GameState>()` of that object gives back the same record |
| Types.PrepareRoundTrip | API/Types.hpp:1992-1998 | every `Prepare` encodes as an object, and `get<Prepare>()` of that object gives back the same record |
| Types.ApiHelloRoundTrip | API/Types.hpp:2001-2007 | every `ApiHello` encodes as an object, and `get<ApiHello>()` of that object gives back the same record |
| Types.SingleTargetLabelsDistinct | API/Types.hpp:132-149 | no two cases of `SingleTarget` share a JSON label, so the label `to_json` writes selects one case in `from_json` |
| Types.SingleTargetRoundTrip | API/Types.hpp:132-149 | `to_json` of a `SingleTarget` succeeds exactly when it holds a valid case with an encodable payload; `from_json` of what it writes gives back the same value whatever the variant held before |
| Types.TargetLabelsDistinct | API/Types.hpp:161-178 | no two cases of `Target` share a JSON label, so the label `to_json` writes selects one case in `from_json` |
| Types.TargetRoundTrip | API/Types.hpp:161-178 | `to_json` of a `Target` succeeds exactly when it holds a valid case with an encodable payload; `from_json` of what it writes gives back the same value whatever the variant held before |
| Types.AreaShapeLabelsDistinct | API/Types.hpp:469-490 | no two cases of `AreaShape` share a JSON label, so the label `to_json` writes selects one case in `from_json` |
| Types.AreaShapeRoundTrip | API/Types.hpp:469-490 | `to_json` of a `AreaShape` succeeds exactly when it holds a valid case with an encodable payload; `from_json` of what it writes gives back the same value whatever the variant held before |
| Types.AbilityEffectSpecificLabelsDistinct | API/Types.hpp:550-581 | no two cases of `AbilityEffectSpecific` share a JSON label, so the label `to_json` writes selects one case in `from_json` |
| Types.AbilityEffectSpecificRoundTrip | API/Types.hpp:550-581 | `to_json` of a `AbilityEffectSpecific` succeeds exactly when it holds a valid case with an encodable payload; `from_json` of what it writes gives back the same value whatever the variant held before |
| Types.MountStateLabelsDistinct | API/Types.hpp:660-685 | no two cases of `MountState` share a JSON label, so the label `to_json` writes selects one case in `from_json` |
| Types.MountStateRoundTrip | API/Types.hpp:660-685 | `to_json` of a `MountState` succeeds exactly when it holds a valid case with an encodable payload; `from_json` of what it writes gives back the same value whatever the variant held before |
| Types.AspectLabelsDistinct | API/Types.hpp:892-963 | no two cases of `Aspect` share a JSON label, so the label `to_json` writes selects one case in `from_json` |
| Types.AspectRoundTrip | API/Types.hpp:892-963 | `to_json` of a `Aspect` succeeds exactly when it holds a valid case with an encodable payload; `from_json` of what it writes gives back the same value whatever the variant held before |
| Types.AspectSeqRoundTrip | API/Types.hpp:892-963 | a list of `Aspect` values (a `std::vector` field) encodes exactly when every element does, and then decodes back element for element |
| Types.JobLabelsDistinct | API/Types.hpp:1355-1430 | no two cases of `Job` share a JSON label, so the label `to_json` writes selects one case in `from_json` |
| Types.JobRoundTrip | API/Types.hpp:1355-1430 | `to_json` of a `Job` succeeds exactly when it holds a valid case with an encodable payload; `from_json` of what it writes gives back the same value whatever the variant held before |
| Types.CommandLabelsDistinct | API/Types.hpp:1705-1776 | no two cases of `Command` share a JSON label, so the label `to_json` writes selects one case in `from_json` |
| Types.CommandRoundTrip | API/Types.hpp:1705-1776 | `to_json` of a `Command` succeeds exactly when it holds a valid case with an encodable payload; `from_json` of what it writes gives back the same value whatever the variant held before |
| Types.CommandRejectionReasonLabelsDistinct | API/Types.hpp:1892-1931 | no two cases of `CommandRejectionReason` share a JSON label, so the label `to_json` writes selects one case in `from_json` |
| Types.CommandRejectionReasonRoundTrip | API/Types.hpp:1892-1931 | `to_json` of a `CommandRejectionReason` succeeds exactly when it holds a valid case with an encodable payload; `from_json` of what it writes gives back the same value whatever the variant held before |
| Types.DeckFields | API/Types.hpp:218-228 | a deck encodes its name and cover card index under their own keys and its 20 cards as an array |
| CLikeFamilies.SingleTargetLabelsAgree | API/TypesCLike.hpp:188-195 | the labels the C-like `SingleTarget` writes are, case by case, those of the `std::variant` form |
| CLikeFamilies.SingleTargetToJsonShape | API/TypesCLike.hpp:188-195 | `Invalid` fails with "Invalid default variant!", a failing payload fails the same way, and any other case writes a one-key object from its label to its payload |
| CLikeFamilies.SingleTargetDecodeCaseIndex | API/TypesCLike.hpp:196-202 | the payload decoder for label `k` produces a value of case `k`, which holds no other tagged struct and can always be copied, so `from_json` writes a matching tag and payload |
| CLikeFamilies.SingleTargetFromJsonSelects | API/TypesCLike.hpp:196-202 | `from_json` of `SingleTarget` is the first-item selection every tagged struct performs: no items fail, an unknown first key keeps the old value, a known one decodes that case exactly as the `std::variant` form does |
| CLikeFamilies.SingleTargetLawful | API/TypesCLike.hpp:188-202 | the C-like `SingleTarget` satisfies everything the tagged struct relies on, including that what it writes can be copied and reads back |
| CLikeFamilies.TargetLabelsAgree | API/TypesCLike.hpp:269-276 | the labels the C-like `Target` writes are, case by case, those of the `std::variant` form |
| CLikeFamilies.TargetToJsonShape | API/TypesCLike.hpp:269-276 | `Invalid` fails with "Invalid default variant!", a failing payload fails the same way, and any other case writes a one-key object from its label to its payload |
| CLikeFamilies.TargetDecodeCaseIndex | API/TypesCLike.hpp:277-283 | the payload decoder for label `k` produces a value of case `k` in which every tagged struct has a case, so `from_json` writes a matching tag and payload; a payload holding a tagged struct left `Invalid` is refused with "Invalid default variant!" by that struct's `operator=` |
| CLikeFamilies.TargetFromJsonSelects | API/TypesCLike.hpp:277-283 | `from_json` of the C-like `Target` selects on the first item like every tagged struct (no items fail, an unknown first key keeps the old value) and decodes a known case as the `std::variant` form does, except that a payload holding a tagged struct left `Invalid` fails with "Invalid default variant!" |
| CLikeFamilies.TargetRefusesNestedInvalid | API/TypesCLike.hpp:277-283 | a `Single` payload whose inner tagged struct has an unknown key decodes in the `std::variant` form with that struct `Invalid`, while the C-like `from_json` fails on it with "Invalid default variant!" |
| CLikeFamilies.TargetLawful | API/TypesCLike.hpp:269-283 | the C-like `Target` satisfies everything the tagged struct relies on: what it writes can be copied and reads back, and it decodes as the `std::variant` form except where a payload cannot be stored |
| CLikeFamilies.AreaShapeLabelsAgree | API/TypesCLike.hpp:647-656 | the labels the C-like `AreaShape` writes are, case by case, those of the `std::variant` form |
| CLikeFamilies.AreaShapeToJsonShape | API/TypesCLike.hpp:647-656 | `Invalid` fails with "Invalid default variant!", a failing payload fails the same way, and any other case writes a one-key object from its label to its payload |
| CLikeFamilies.AreaShapeDecodeCaseIndex | API/TypesCLike.hpp:657-665 | the payload decoder for label `k` produces a value of case `k`, which holds no other tagged struct and can always be copied, so `from_json` writes a matching tag and payload |
| CLikeFamilies.AreaShapeFromJsonSelects | API/TypesCLike.hpp:657-665 | `from_json` of `AreaShape` is the first-item selection every tagged struct performs: no items fail, an unknown first key keeps the old value, a known one decodes that case exactly as the `std::variant` form does |
| CLikeFamilies.AreaShapeLawful | API/TypesCLike.hpp:647-665 | the C-like `AreaShape` satisfies everything the tagged struct relies on, including that what it writes can be copied and reads back |
| CLikeFamilies.AbilityEffectSpecificLabelsAgree | API/TypesCLike.hpp:843-857 | the labels the C-like `AbilityEffectSpecific` writes are, case by case, those of the `std::variant` form |
| CLikeFamilies.AbilityEffectSpecificToJsonShape | API/TypesCLike.hpp:843-857 | `Invalid` fails with "Invalid default variant!", a failing payload fails the same way, and any other case writes a one-key object from its label to its payload |
| CLikeFamilies.AbilityEffectSpecificDecodeCaseIndex | API/TypesCLike.hpp:858-871 | the payload decoder for label `k` produces a value of case `k` in which every tagged struct has a case, so `from_json` writes a matching tag and payload; a payload holding a tagged struct left `Invalid` is refused with "Invalid default variant!" by that struct's `operator=` |
| CLikeFamilies.AbilityEffectSpecificFromJsonSelects | API/TypesCLike.hpp:858-871 | `from_json` of the C-like `AbilityEffectSpecific` selects on the first item like every tagged struct (no items fail, an unknown first key keeps the old value) and decodes a known case as the `std::variant` form does, except that a payload holding a tagged struct left `Invalid` fails with "Invalid default variant!" |
| CLikeFamilies.AbilityEffectSpecificRefusesNestedInvalid | API/TypesCLike.hpp:858-871 | a `DamageArea` payload whose inner tagged struct has an unknown key decodes in the `std::variant` form with that struct `Invalid`, while the C-like `from_json` fails on it with "Invalid default variant!" |
| CLikeFamilies.AbilityEffectSpecificLawful | API/TypesCLike.hpp:843-871 | the C-like `AbilityEffectSpecific` satisfies everything the tagged struct relies on: what it writes can be copied and reads back, and it decodes as the `std::variant` form except where a payload cannot be stored |
| CLikeFamilies.MountStateLabelsAgree | API/TypesCLike.hpp:1041-1052 | the labels the C-like `MountState` writes are, case by case, those of the `std::variant` form |
| CLikeFamilies.MountStateToJsonShape | API/TypesCLike.hpp:1041-1052 | `Invalid` fails with "Invalid default variant!", a failing payload fails the same way, and any other case writes a one-key object from its label to its payload |
| CLikeFamilies.MountStateDecodeCaseIndex | API/TypesCLike.hpp:1053-1063 | the payload decoder for label `k` produces a value of case `k`, which holds no other tagged struct and can always be copied, so `from_json` writes a matching tag and payload |
| CLikeFamilies.MountStateFromJsonSelects | API/TypesCLike.hpp:1053-1063 | `from_json` of `MountState` is the first-item selection every tagged struct performs: no items fail, an unknown first key keeps the old value, a known one decodes that case exactly as the `std::variant` form does |
| CLikeFamilies.MountStateLawful | API/TypesCLike.hpp:1041-1063 | the C-like `MountState` satisfies everything the tagged struct relies on, including that what it writes can be copied and reads back |
| CLikeFamilies.AspectLabelsAgree | API/TypesCLike.hpp:1568-1602 | the labels the C-like `Aspect` writes are, case by case, those of the `std::variant` form |
| CLikeFamilies.AspectToJsonShape | API/TypesCLike.hpp:1568-1602 | `Invalid` fails with "Invalid default variant!", a failing payload fails the same way, and any other case writes a one-key object from its label to its payload |
| CLikeFamilies.AspectDecodeCaseIndex | API/TypesCLike.hpp:1603-1636 | the payload decoder for label `k` produces a value of case `k` in which every tagged struct has a case, so `from_json` writes a matching tag and payload; a payload holding a tagged struct left `Invalid` is refused with "Invalid default variant!" by that struct's `operator=` |
| CLikeFamilies.AspectFromJsonSelects | API/TypesCLike.hpp:1603-1636 | `from_json` of the C-like `Aspect` selects on the first item like every tagged struct (no items fail, an unknown first key keeps the old value) and decodes a known case as the `std::variant` form does, except that a payload holding a tagged struct left `Invalid` fails with "Invalid default variant!" |
| CLikeFamilies.AspectRefusesNestedInvalid | API/TypesCLike.hpp:1603-1636 | a `MountBarrier` payload whose inner tagged struct has an unknown key decodes in the `std::variant` form with that struct `Invalid`, while the C-like `from_json` fails on it with "Invalid default variant!" |
| CLikeFamilies.AspectLawful | API/TypesCLike.hpp:1568-1636 | the C-like `Aspect` satisfies everything the tagged struct relies on: what it writes can be copied and reads back, and it decodes as the `std::variant` form except where a payload cannot be stored |
| CLikeFamilies.JobLabelsAgree | API/TypesCLike.hpp:2344-2380 | the labels the C-like `Job` writes are, case by case, those of the `std::variant` form |
| CLikeFamilies.JobToJsonShape | API/TypesCLike.hpp:2344-2380 | `Invalid` fails with "Invalid default variant!", a failing payload fails the same way, and any other case writes a one-key object from its label to its payload |
| CLikeFamilies.JobDecodeCaseIndex | API/TypesCLike.hpp:2381-2416 | the payload decoder for label `k` produces a value of case `k` in which every tagged struct has a case, so `from_json` writes a matching tag and payload; a payload holding a tagged struct left `Invalid` is refused with "Invalid default variant!" by that struct's `operator=` |
| CLikeFamilies.JobFromJsonSelects | API/TypesCLike.hpp:2381-2416 | `from_json` of the C-like `Job` selects on the first item like every tagged struct (no items fail, an unknown first key keeps the old value) and decodes a known case as the `std::variant` form does, except that a payload holding a tagged struct left `Invalid` fails with "Invalid default variant!" |
| CLikeFamilies.JobRefusesNestedInvalid | API/TypesCLike.hpp:2381-2416 | a `Morph` payload whose inner tagged struct has an unknown key decodes in the `std::variant` form with that struct `Invalid`, while the C-like `from_json` fails on it with "Invalid default variant!" |
| CLikeFamilies.JobLawful | API/TypesCLike.hpp:2344-2416 | the C-like `Job` satisfies everything the tagged struct relies on: what it writes can be copied and reads back, and it decodes as the `std::variant` form except where a payload cannot be stored |
| CLikeFamilies.CommandLabelsAgree | API/TypesCLike.hpp:2989-3023 | the labels the C-like `Command` writes are, case by case, those of the `std::variant` form |
| CLikeFamilies.CommandToJsonShape | API/TypesCLike.hpp:2989-3023 | `Invalid` fails with "Invalid default variant!", a failing payload fails the same way, and any other case writes a one-key object from its label to its payload |
| CLikeFamilies.CommandDecodeCaseIndex | API/TypesCLike.hpp:3024-3057 | the payload decoder for label `k` produces a value of case `k` in which every tagged struct has a case, so `from_json` writes a matching tag and payload; a payload holding a tagged struct left `Invalid` is refused with "Invalid default variant!" by that struct's `operator=` |
| CLikeFamilies.CommandFromJsonSelects | API/TypesCLike.hpp:3024-3057 | `from_json` of the C-like `Command` selects on the first item like every tagged struct (no items fail, an unknown first key keeps the old value) and decodes a known case as the `std::variant` form does, except that a payload holding a tagged struct left `Invalid` fails with "Invalid default variant!" |
| CLikeFamilies.CommandRefusesNestedInvalid | API/TypesCLike.hpp:3024-3057 | a `CastSpellGod` payload whose inner tagged struct has an unknown key decodes in the `std::variant` form with that struct `Invalid`, while the C-like `from_json` fails on it with "Invalid default variant!" |
| CLikeFamilies.CommandLawful | API/TypesCLike.hpp:2989-3057 | the C-like `Command` satisfies everything the tagged struct relies on: what it writes can be copied and reads back, and it decodes as the `std::variant` form except where a payload cannot be stored |
| CLikeFamilies.CommandRejectionReasonLabelsAgree | API/TypesCLike.hpp:3327-3345 | the labels the C-like `CommandRejectionReason` writes are, case by case, those of the `std::variant` form |
| CLikeFamilies.CommandRejectionReasonToJsonShape | API/TypesCLike.hpp:3327-3345 | `Invalid` fails with "Invalid default variant!", a failing payload fails the same way, and any other case writes a one-key object from its label to its payload |
| CLikeFamilies.CommandRejectionReasonDecodeCaseIndex | API/TypesCLike.hpp:3346-3363 | the payload decoder for label `k` produces a value of case `k`, which holds no other tagged struct and can always be copied, so `from_json` writes a matching tag and payload |
| CLikeFamilies.CommandRejectionReasonFromJsonSelects | API/TypesCLike.hpp:3346-3363 | `from_json` of `CommandRejectionReason` is the first-item selection every tagged struct performs: no items fail, an unknown first key keeps the old value, a known one decodes that case exactly as the `std::variant` form does |
| CLikeFamilies.CommandRejectionReasonLawful | API/TypesCLike.hpp:3327-3363 | the C-like `CommandRejectionReason` satisfies everything the tagged struct relies on, including that what it writes can be copied and reads back |
| Codec.U8FromJson | API/Types.hpp:609 | reading a `uint8_t` field accepts an integer, a float or a boolean and nothing else, and keeps the low 8 bits of the integer, of the float's integer part, or of the boolean's 0 or 1: an integer in range reads as itself, 256 as 0 and -1 as 255 |
| Codec.U16FromJson | API/Types.hpp:509 | reading a `uint16_t` field accepts an integer, a float or a boolean, and keeps the low 16 bits of the integer, of the float's integer part, or of the boolean's 0 or 1 |
| Codec.U32FromJson | API/Types.hpp:606 | reading a 32-bit id accepts an integer, a float or a boolean, and keeps the low 32 bits of the integer, of the float's integer part, or of the boolean's 0 or 1 |
| Codec.U64FromJson | API/Types.hpp:194-196 | reading a `uint64_t` field accepts an integer or a float but not a boolean, and keeps the low 64 bits of the integer or of the float's integer part |
| Codec.EnumFromJson | API/Types.hpp:607 | an enumeration field reads from an integer or a float only, and keeps the low 32 bits of the integer or of the float's integer part |
| Codec.FloatFromJson | API/Types.hpp:79-84 | a `float` field accepts an integer, a float or a boolean; a float reads as itself |
| Codec.BoolFromJson | API/Types.hpp:506-507 | a `bool` field reads from a JSON boolean only, and reads its value |
| Codec.StringFromJson | API/Types.hpp:192-196 | a `std::string` field reads from a JSON string only, and reads its text |
| Types.SurrenderWireForm | API/Types.hpp:1691-1697 | surrender is written as `{"Surrender": {"CommandSurrender": null}}`: the empty braces in the payload encoder give a null value |
| Codec.SeqRoundTrip | API/Types.hpp:514-515 | when every element round-trips, a `std::vector` field encodes as an array and decodes back to the same list |
| Codec.FixedRoundTrip | API/Types.hpp:226-228 | when every element round-trips, the fixed array `cards[20]` encodes as an array and decodes back to the same cards |
| Codec.At | API/Types.hpp:606-609 | `j.at(key)` yields the member stored under the key; it fails with a type error on a non-object and with a key-not-found error naming the key when it is missing |
| Codec.OptionalAt | API/Types.hpp:610-615 | an optional field keeps its old value when its key is absent, becomes empty on `null` (as the optional serializer does), and otherwise holds the decoded value or fails with the decoder's error |
| Codec.LastIndexOf | API/Types.hpp:144-146 | the index of the last label equal to the key, or none: a union decoder tests every label, so with repeated labels the last one would win |
| Codec.SelectCase | API/Types.hpp:144-149 | the loop over `j.items()` computes the selection: no items is an error, the first item alone decides, an unknown first key selects nothing |
| Codec.SelectEncoded | API/Types.hpp:134-149 | with distinct labels, the one-key object written for case `k` is selected as case `k` with its payload |
| Codec.SelectFirstItemOnly | API/Types.hpp:144-149 | items after the first never influence which case is decoded |
| Codec.SelectLeastKey | API/Types.hpp:144-149 | the label that decides is the least key of the object in key order, so an object with several keys is decided by its smallest key |
| Json.Put | API/Types.hpp:593-603 | `j[key] = v` on `null` or an object yields an object in which the key maps to `v` and every other key keeps its value |
| Json.PutWellFormed | API/Types.hpp:593-603 | assigning a key keeps an object's members sorted by key with no key twice |
| Json.InsertSorted | API/Types.hpp:593-596 | inserting into sorted members keeps them strictly sorted and adds no key but the inserted one |
| Json.PutOptional | API/Types.hpp:597-602 | an empty optional field is not written and leaves the object as it was; a set one is assigned under its key |
| Json.Items | API/Types.hpp:144 | the items of an object are its members in key order; `null` has none and an array has one per element |
| Json.FirstItemHasLeastKey | API/Types.hpp:144 | the first item of a well-formed object has a key smaller than every other key in it |
| Text.Render | API/DebugPrint.hpp:12 | the stream prints a number as digits of its base with no leading zero |
| Text.RenderRoundTrip | API/DebugPrint.hpp:12 | reading the printed digits back gives the number that was printed |
| Text.RenderInjective | API/DebugPrint.hpp:24 | different numbers print as different digit strings |
| DebugPrint.Debug | API/DebugPrint.hpp:6-53 | the message always ends in a newline, and only a union holding no case prints nothing but the newline |
| DebugPrint.CardRejectedShowsReason | API/DebugPrint.hpp:11-13 | a rejected card prints "Can not play card " and then the reason as hexadecimal digits that read back to the reason |
| DebugPrint.InvalidEntityTypeShowsType | API/DebugPrint.hpp:23-25 | an invalid entity type prints "entity_type ", then the type as decimal digits that read back to it, then " is not valid" |
| DebugPrint.OtherCasesPrintTheirName | API/DebugPrint.hpp:14-49 | every other case prints exactly its case name, which is also its JSON label |
| Helpers.CardIdWithUpgrade | API/Helpers.hpp:8-10 | a card id is the template plus the upgrade offset whenever that sum fits a 32-bit id |
| Helpers.NoUpgradeIsTemplate | API/HelpersCLike.hpp:8-10 | with upgrade `U0`, the card id is the template itself |
| Helpers.UpgradeOffsets | API/Helpers.hpp:8-10 | upgrades `U1`, `U2` and `U3` add one, two and three million to the template |
| Helpers.UpgradeIsRecoverable | API/HelpersCLike.hpp:8-10 | for templates below one million, the card id determines both the template and the upgrade |
| Helpers.To2D | API/Helpers.hpp:11-16 | the 2D position takes `x` from `x` and `y` from `z` |
| Helpers.To2DIgnoresHeight | API/HelpersCLike.hpp:11-16 | the height `y` does not change the 2D position |
| Helpers.To2DSeparates | API/Helpers.hpp:11-16 | positions that differ in `x` or `z` project to different 2D positions |
| TypesCLike.Tagged.Default | API/TypesCLike.hpp:152-156 | the default constructor leaves the cleared struct holding `Invalid` |
| TypesCLike.Tagged.Of | API/TypesCLike.hpp:177-186 | a payload constructor yields a fresh consistent struct holding the payload and the tag of its case, or fails with "Invalid default variant!" when a tagged struct inside the payload holds `Invalid` |
| TypesCLike.Tagged.Copy | API/TypesCLike.hpp:157-166 | copying fails on `Invalid`, on an unknown tag, and on a payload holding a tagged struct left `Invalid`; otherwise it yields a fresh struct with the same tag and payload |
| TypesCLike.Tagged.Assign | API/TypesCLike.hpp:167-176 | assignment as written: from another struct it copies tag and payload or fails like the copy, keeping the source's tag; assigning a struct to itself fails and leaves `Invalid` |
| TypesCLike.Tagged.AssignChecked | API/TypesCLike.hpp:167-176 | the corrected assignment copies tag and payload from any struct, itself included, and fails only where the copy does |
| TypesCLike.Tagged.ToJson | API/TypesCLike.hpp:188-195 | `Invalid` and unknown tags fail; otherwise the output is the one-key object from the case's label to its payload |
| TypesCLike.Tagged.FromJson | API/TypesCLike.hpp:196-202 | no items fail; an unknown first key changes nothing; a known one writes the decoded payload and its tag together, or fails when the payload does not decode or holds a tagged struct left `Invalid`; a consistent struct stays consistent |
| TypesCLike.EncodedSelectsCase | API/TypesCLike.hpp:188-202 | the object a struct writes is read back as the same case with the same payload |
| TypesCLike.ToJsonAgrees | API/TypesCLike.hpp:188-195 | a consistent C-like struct writes exactly what the `std::variant` form writes for the same value |
| CLikeFamilies.VersionsAgree | API/TypesCLike.hpp:41-46 | both headers declare protocol version 22 and the same upgrade offsets |
| CLikeFamilies.SelfAssignmentLosesValue | API/TypesCLike.hpp:167-176 | `t = t` on a struct holding a location fails and leaves the struct holding `Invalid` |
| CLikeFamilies.SelfAssignmentCheckedKeepsValue | API/TypesCLike.hpp:167-176 | with the corrected assignment, `t = t` succeeds and keeps the location |
| BotLogic.LowerBound | Example/Example.cpp:116-117 | the position of the first id not below the key; every id before it is below the key |
| BotLogic.LowerBoundSplits | Example/Basic.cpp:57-58 | on input partitioned by the key, every id from the lower bound on is at least the key |
| BotLogic.LowerBoundIsBoundary | Example/ExampleCLike.cpp:55-56 | any split point with smaller ids before it and the rest after it is the lower bound |
| BotLogic.SortedIsPartitioned | Example/Example.cpp:116-117 | a sorted list of ids is partitioned by every key, as `std::lower_bound` requires |
| BotLogic.LowerBoundFindsKey | Example/Basic.cpp:57-59 | in a sorted list that contains the key, the lower bound points at the key |
| BotLogic.LowerBoundFindsMe | Example/Example.cpp:116-118 | with strictly ascending player ids that include mine, the lower bound finds the same player as the linear search |
| BotLogic.LowerBoundPassesMissingKey | Example/Basic.cpp:56-58 | when my id is missing, the player `std::lower_bound` lands on has a larger id, the first such one |
| BotLogic.MissingIdAdoptsNextPlayer | Example/Basic.cpp:56-58 | ids 5 and 9 with my id 7 meet `std::lower_bound`'s precondition and land on player 9, while the linear search finds nobody |
| BotLogic.FindPlayer | Example/Basic.cpp:79-88 | the index of the first player with my id, or none exactly when no player has it |
| BotLogic.OtherTeamsMembers | Example/Basic.cpp:60-64 | an id is an opponent exactly when some player with that id is on another team, and there are no more opponents than players |
| BotLogic.NoOwnedSlotKeepsStart | Example/Basic.cpp:70-75 | with no token slot of mine, the start position stays as it was |
| BotLogic.StartIsLastOwnedSlot | Example/Example.cpp:69-74 | the start position is the 2D position of the last token slot I own |
| BotLogic.ArmyMembers | Example/Basic.cpp:91-97 | my army is exactly the squads I own, at most one id per squad |
| BotLogic.NoOpponentSlotNoTarget | Example/Basic.cpp:98-104 | with no token slot owned by an opponent, the target stays 0 |
| BotLogic.TargetIsLastOpponentSlot | Example/Example.cpp:127-133 | the target is the last token slot owned by any opponent |
| BotLogic.OrdersAre | Example/Basic.cpp:106-121 | at most two commands: a spawn exactly when power is at least 50, an attack exactly when there is an army and a target, the spawn first, nothing else |
| BotLogic.OrdersTravel | Example/Example.cpp:135-150 | every command a bot issues encodes and is read back unchanged |
| Bots.FindMe | Example/Basic.cpp:79-88 | the search loop finds my player exactly as `FindPlayer` says |
| Bots.LowerBoundSearch | Example/Example.cpp:116-117 | the binary search returns the lower bound on partitioned input |
| Bots.AppendOpponents | Example/ExampleCLike.cpp:58-62 | the loop appends to the opponents every player on another team, in order |
| Bots.FindStart | Example/ExampleCLike.cpp:68-73 | the loop leaves the start at the last token slot I own |
| Bots.CollectArmy | Example/ExampleCLike.cpp:120-126 | the loop collects exactly my army |
| Bots.ChooseTarget | Example/ExampleCLike.cpp:127-133 | the nested loops pick the last token slot owned by any opponent |
| Bots.IssueOrders | Example/ExampleCLike.cpp:135-150 | the commands issued are the bot's orders |
| Bots.BasicBot.constructor | Example/Basic.cpp:15 | the bot is named "DumDumBot" and starts with zero ids, no opponents and the origin as start |
| Bots.BasicBot.DecksForMap | Example/Basic.cpp:41-52 | one deck "RelaxDeck" with cover card 0, Master Archers and Avatar of Frost at upgrade U3 in the first two slots, and no card elsewhere |
| Bots.BasicBot.PrepareForBattle | Example/Basic.cpp:18-21 | the opponents are cleared and nothing else changes |
| Bots.BasicBot.MatchStart | Example/Basic.cpp:54-76 | the bot records its id, takes its team from the player `std::lower_bound` finds, appends the players of other teams to its opponents and starts at its last token slot |
| Bots.BasicBot.Tick | Example/Basic.cpp:77-122 | the error "Could not find my player entity" exactly when my player is missing; otherwise the orders for my power, start, army and target |
| Bots.CExampleBot.constructor | Example/ExampleCLike.cpp:15 | the bot is named "CppExampleBot" and starts with zero ids, no opponents and the origin as start |
| Bots.CExampleBot.DecksForMap | Example/ExampleCLike.cpp:41-51 | one deck "TestDeck" with cover card 0, Master Archers at upgrade U3 in the first slot, and no card elsewhere |
| Bots.CExampleBot.PrepareForBattle | Example/ExampleCLike.cpp:18-21 | the opponents are cleared and nothing else changes |
| Bots.CExampleBot.MatchStart | Example/ExampleCLike.cpp:52-74 | the bot records its id, takes its team from the player `std::lower_bound` finds, appends the players of other teams to its opponents and starts at its last token slot |
| Bots.CExampleBot.Tick | Example/ExampleCLike.cpp:108-150 | the error "Could not find my player entity" exactly when my player is missing; otherwise the orders for my power, start, army and target |
| Bots.ExampleBot.constructor | Example/Example.cpp:16 | the bot is named "CppExampleBot" and starts with zero ids, no opponents and the origin as start |
| Bots.ExampleBot.DecksForMap | Example/Example.cpp:42-52 | one deck "TestDeck" with cover card 0, Master Archers at upgrade U3 in the first slot, and no card elsewhere |
| Bots.ExampleBot.PrepareForBattle | Example/Example.cpp:19-22 | the opponents are cleared and nothing else changes |
| Bots.ExampleBot.MatchStart | Example/Example.cpp:53-75 | the bot records its id, takes its team from the player `std::lower_bound` finds, appends the players of other teams to its opponents and starts at its last token slot |
| Bots.ExampleBot.Tick | Example/Example.cpp:116-150 | the orders for the power of the player `std::lower_bound` finds, my start, army and target |

`API/HelpersCLike.hpp` repeats `API/Helpers.hpp` word for word over the C-like records, which are the same `Types` datatypes here. One `Helpers` module models both, and the table cites each file for some of its members.

The codec keeps these details as the code has them:

- An unknown first key leaves a union as it was. Decoding succeeds.
- An empty object fails with the plain "invalid json" error.
- A payload without fields is written as `{"<StructName>": null}` inside the case object (API/Types.hpp:545-547, 1694-1696). For example, surrender is `{"Surrender": {"CommandSurrender": null}}`. The inner `{}` in `nlohmann::json{ { "CommandSurrender", {} } }` is an empty element of the initializer list; it is value-initialised, and that gives a null value, not an empty object. The decoder of such a payload ignores its input, so the round trips do not depend on this reading.
- A `JobMountBarrier` with neither optional field set is written as `null` (API/Types.hpp:1227-1234), because its `to_json` never assigns `j`.
- In the C-like header, a payload that holds a tagged struct reaches the union through that struct's `operator=`. That operator throws "Invalid default variant!" when the inner struct holds `Invalid`, for example after an unknown inner key. So the C-like `from_json` of `Target`, `AbilityEffectSpecific`, `Aspect`, `Job` and `Command` refuses such payloads, which the `std::variant` form keeps.

## Left out

- Parsing and printing JSON text are left out: json.hpp is not part of this model. Messages are JSON values, and the model works from the value on.
- Floating point: `float` fields are real numbers. NaN, infinities and rounding to single precision are not modelled.
- Converting a float to an unsigned field is undefined behaviour in C++ when the value is out of range. The model truncates toward zero and then keeps the low bits, like an in-range integer.
- Enumerations (walk modes, ability lines, orb colours, `maps::Maps` and the rest) travel as numbers and are modelled as `u32`. Their named values are not listed.
- `CardTemplate.h` is not part of this model: card templates such as Master Archers are parameters of `DecksForMap`.
- Helpers.CardIdWithUpgrade: the contract states the sum only where it fits in 32 bits. The wrap-around beyond that is in the body and is not stated as a property.
- `API/boost_wrapper.hpp` and `Example/Main.cpp` are left out: they cover the HTTP server, command-line handling and the protocol version check at startup. These are I/O around the core.
- Console output is left out. This covers the bots' `std::cout` lines, the `mapInfo` printing in `DecksForMap` and `PrepareForBattle`, the power-slot loop in `MatchStart` (it only prints), the printing of rejected commands through `Debug` (Example/Example.cpp:110-114) and the commented-out printing blocks. `mapInfo` is a parameter the bots never use for anything else.
- Bots.BasicBot.MatchStart and the other `MatchStart` methods require the players to be partitioned by my id, as `std::lower_bound` needs, and the search to land on a player. Only input outside this is undefined in the source, and only that input is excluded. There are two such cases. Players not partitioned by my id break `std::lower_bound`'s precondition. A search that passes every player returns the end of the list, which the source then dereferences. When my id is missing but a larger id is present, the source takes that player's team as mine; the model keeps this, and BotLogic.MissingIdAdoptsNextPlayer shows it for ids 5 and 9 with my id 7.
- Bots.ExampleBot.Tick: it requires the same of `std::lower_bound` on the tick's players. When my id is missing but a larger id is present, it uses that player's power, as the source does, where the other `Tick`s report that my player is missing.
- The `Name` member of each bot class is never set or read. The name a bot registers with is kept as `botName`.
- `memset`, `sizeof` and the memory layout of the C-like unions are not modelled. The cleared union is the family's `Invalid` value.
- A C-like tag outside the family's cases can only come from corrupted memory. The model keeps that case, and its `InvalidVariant` error, in `Copy`, `Assign` and `ToJson`.
- The C-like assignment operator falls off its end without `return *this`. Only its effect on the struct is modelled.
- The C-like records are the `Types` datatypes, decoded with the `std::variant` decoders. The C-like header declares the same fields and keys. Its nine tagged structs are modelled separately, including the refusal to store a payload that holds an `Invalid` tagged struct. Copies of records outside a tagged struct are not modelled. In the C-like header, copying a record or list element that holds a tagged struct left `Invalid` throws. This happens, for example, for an aspect with an unknown key in an entity's `aspects` list, or a squad whose entity's job is `Invalid`, when the element is inserted into its `std::vector`. The model keeps such values, as the `std::variant` form does.
- TypesCLike.Tagged.FromJson: when a selected payload is refused because a tagged struct inside it holds `Invalid`, the C++ `operator=` has already cleared part of the union before it throws. The model leaves the struct as it was.
- TypesCLike.Tagged.Assign and TypesCLike.Tagged.AssignChecked: when the source payload holds a tagged struct left `Invalid`, the C++ code has already copied the payload's fields before that struct when it throws. The model leaves the union cleared.
- The `invalid_enum_variant` member of each C-like union and the defaulted copy and move operations of the raw unions are not modelled. What a union holds is a `Types` value.

## Findings

| source | as written | input that shows it | evidently intended | confidence | as-written member | corrected member |
|---|---|---|---|---|---|---|
| API/TypesCLike.hpp:167-176 | `operator=` clears `this` with `memset` before reading `other`. When `other` is `this`, it then reads the cleared tag `Invalid` and throws. The same pattern is in every tagged struct of the header. | `t = t` on a `SingleTarget` holding a `Location` | self-assignment keeps the value, as the `std::variant` form does | not executed | TypesCLike.Tagged.Assign (exhibited by CLikeFamilies.SelfAssignmentLosesValue) | TypesCLike.Tagged.AssignChecked (exhibited by CLikeFamilies.SelfAssignmentCheckedKeepsValue) |
