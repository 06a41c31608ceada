/**
 * The tagged unions of the C-like header, family by family: the labels the
 * header writes, and the proof that each family satisfies what the tagged
 * struct relies on, so that what one struct writes another reads back.
 */
module CLikeFamilies {
  import opened Wrappers
  import opened Json
  import opened Codec
  import opened Types
  import TypesCLike

  /** Both headers declare the same protocol version and upgrade offsets. */
  lemma VersionsAgree()
    ensures TypesCLike.VERSION == Types.VERSION
    ensures TypesCLike.UpgradeU0 == Types.UpgradeU0
    ensures TypesCLike.UpgradeU1 == Types.UpgradeU1
    ensures TypesCLike.UpgradeU2 == Types.UpgradeU2
    ensures TypesCLike.UpgradeU3 == Types.UpgradeU3
  {
  }

  // SingleTarget

  /** The labels the C-like `SingleTarget` writes, in case order. */
  const CSingleTargetLabels: seq<string> := ["SingleEntity", "Location"]

  /** Case by case, the C-like header uses the labels of the `std::variant` form. */
  lemma SingleTargetLabelsAgree()
    ensures CSingleTargetLabels == SingleTargetLabels
  {
  }

  /**
   * `payload.get<Payload_k>()` for case `k`; no payload of this family holds
   * a tagged struct, so storing it cannot fail. Any other number names no
   * case.
   */
  function SingleTargetDecodeCase(k: nat, payload: Json): Outcome<SingleTarget>
  {
    if 1 <= k <= |SingleTargetLabels| then SingleTargetCase(k, payload) else Err(InvalidVariant)
  }

  const SingleTargetFamily: TypesCLike.Family<SingleTarget> :=
    TypesCLike.Family(CSingleTargetLabels, SingleTargetIndex, SingleTarget.Invalid, SingleTargetEncodable, SingleTargetPayloadToJson, SingleTargetDecodeCase, SingleTargetToJson, SingleTargetFromJson)

  /** The decoder of case `k` stores a value of case `k` that can be copied. */
  lemma SingleTargetDecodeCaseIndex(k: nat, payload: Json)
    requires 1 <= k <= |SingleTargetLabels|
    ensures SingleTargetDecodeCase(k, payload).Ok? ==>
      SingleTargetIndex(SingleTargetDecodeCase(k, payload).value) == k && SingleTargetEncodable(SingleTargetDecodeCase(k, payload).value)
  {
    hide SingleTargetSingleEntityFromJson, SingleTargetLocationFromJson, GetSingleTargetSingleEntity, GetSingleTargetLocation;
  }

  /** A valid case encodes as its label mapped to its payload. */
  lemma SingleTargetToJsonShape(u: SingleTarget)
    ensures SingleTargetIndex(u) <= |SingleTargetLabels|
    ensures u.Invalid? <==> SingleTargetIndex(u) == 0
    ensures SingleTargetIndex(u) == 0 ==> SingleTargetToJson(u) == Err(InvalidDefaultVariant)
    ensures SingleTargetIndex(u) != 0 && SingleTargetPayloadToJson(u).Err? ==> SingleTargetToJson(u) == Err(SingleTargetPayloadToJson(u).error)
    ensures SingleTargetIndex(u) != 0 && SingleTargetPayloadToJson(u).Ok? ==>
      SingleTargetToJson(u) == Ok(Obj([(SingleTargetLabels[SingleTargetIndex(u) - 1], SingleTargetPayloadToJson(u).value)]))
  {
    hide SingleTargetSingleEntityToJson, SingleTargetLocationToJson;
  }

  /**
   * The `std::variant` decoder is the selection every tagged struct
   * performs, and what it selects can always be stored.
   */
  lemma SingleTargetFromJsonSelects(j: Json, prior: SingleTarget)
    ensures SingleTargetFromJson(j, prior) == TypesCLike.Decode(SingleTargetFamily, j, prior)
    ensures TypesCLike.Decode(SingleTargetFamily, j, prior) == TypesCLike.Stored(SingleTargetFamily, j, SingleTargetFromJson(j, prior))
  {
    SingleTargetLabelsAgree();
    hide SingleTargetCase, SingleTargetEncodable, Select;
    match Select(SingleTargetLabels, j)
    case Selected(k, payload) =>
      SingleTargetDecodeCaseIndex(k, payload);
    case _ =>
  }

  /** The C-like `SingleTarget` has everything the tagged struct relies on. */
  lemma SingleTargetLawful()
    ensures TypesCLike.Lawful(SingleTargetFamily)
  {
    SingleTargetLabelsAgree();
    SingleTargetLabelsDistinct();
    hide SingleTargetToJson, SingleTargetPayloadToJson, SingleTargetFromJson, SingleTargetCase, SingleTargetDecodeCase, SingleTargetIndex, SingleTargetEncodable, Select, Distinct;
    forall u: SingleTarget
      ensures SingleTargetIndex(u) <= |CSingleTargetLabels|
      ensures SingleTargetIndex(u) == 0 ==> SingleTargetToJson(u) == Err(InvalidDefaultVariant)
      ensures SingleTargetIndex(u) != 0 && SingleTargetPayloadToJson(u).Err? ==> SingleTargetToJson(u) == Err(SingleTargetPayloadToJson(u).error)
      ensures SingleTargetIndex(u) != 0 && SingleTargetPayloadToJson(u).Ok? ==>
        SingleTargetToJson(u) == Ok(Obj([(CSingleTargetLabels[SingleTargetIndex(u) - 1], SingleTargetPayloadToJson(u).value)]))
    {
      SingleTargetToJsonShape(u);
    }
    forall k: nat, payload | 1 <= k <= |CSingleTargetLabels| && SingleTargetDecodeCase(k, payload).Ok?
      ensures SingleTargetIndex(SingleTargetDecodeCase(k, payload).value) == k && SingleTargetEncodable(SingleTargetDecodeCase(k, payload).value)
    {
      SingleTargetDecodeCaseIndex(k, payload);
    }
    forall u: SingleTarget | SingleTargetToJson(u).Ok?
      ensures SingleTargetEncodable(u)
    {
      SingleTargetRoundTrip(u, u);
    }
    forall j, prior: SingleTarget
      ensures TypesCLike.Decode(SingleTargetFamily, j, prior) == TypesCLike.Stored(SingleTargetFamily, j, SingleTargetFromJson(j, prior))
    {
      SingleTargetFromJsonSelects(j, prior);
    }
    forall u, prior: SingleTarget | SingleTargetToJson(u).Ok?
      ensures SingleTargetFromJson(SingleTargetToJson(u).value, prior) == Ok(u)
    {
      SingleTargetRoundTrip(u, prior);
    }
    SingleTargetToJsonShape(SingleTarget.Invalid);
  }

  // Target

  /** The labels the C-like `Target` writes, in case order. */
  const CTargetLabels: seq<string> := ["Single", "Multi"]

  /** Case by case, the C-like header uses the labels of the `std::variant` form. */
  lemma TargetLabelsAgree()
    ensures CTargetLabels == TargetLabels
  {
  }

  /**
   * `payload.get<Payload_k>()` stored into the union for case `k`. A payload
   * that holds a tagged struct holding `Invalid` is refused by that
   * struct's `operator=`; any other number names no case.
   */
  function TargetDecodeCase(k: nat, payload: Json): Outcome<Target>
  {
    if 1 <= k <= |TargetLabels| then
      var u :- TargetCase(k, payload);
      if TargetEncodable(u) then Ok(u) else Err(InvalidDefaultVariant)
    else Err(InvalidVariant)
  }

  const TargetFamily: TypesCLike.Family<Target> :=
    TypesCLike.Family(CTargetLabels, TargetIndex, Target.Invalid, TargetEncodable, TargetPayloadToJson, TargetDecodeCase, TargetToJson, TargetFromJson)

  /** The decoder of case `k` stores a value of case `k` that can be copied. */
  lemma TargetDecodeCaseIndex(k: nat, payload: Json)
    requires 1 <= k <= |TargetLabels|
    ensures TargetDecodeCase(k, payload).Ok? ==>
      TargetIndex(TargetDecodeCase(k, payload).value) == k && TargetEncodable(TargetDecodeCase(k, payload).value)
  {
    hide TargetSingleFromJson, TargetMultiFromJson, GetTargetSingle, GetTargetMulti;
  }

  /** A valid case encodes as its label mapped to its payload. */
  lemma TargetToJsonShape(u: Target)
    ensures TargetIndex(u) <= |TargetLabels|
    ensures u.Invalid? <==> TargetIndex(u) == 0
    ensures TargetIndex(u) == 0 ==> TargetToJson(u) == Err(InvalidDefaultVariant)
    ensures TargetIndex(u) != 0 && TargetPayloadToJson(u).Err? ==> TargetToJson(u) == Err(TargetPayloadToJson(u).error)
    ensures TargetIndex(u) != 0 && TargetPayloadToJson(u).Ok? ==>
      TargetToJson(u) == Ok(Obj([(TargetLabels[TargetIndex(u) - 1], TargetPayloadToJson(u).value)]))
  {
    hide TargetSingleToJson, TargetMultiToJson;
  }

  /**
   * The C-like `from_json` is the selection every tagged struct performs,
   * and decodes as the `std::variant` form does, except that a selected
   * payload holding a tagged struct that holds `Invalid` fails with
   * "Invalid default variant!" instead of being kept.
   */
  lemma TargetFromJsonSelects(j: Json, prior: Target)
    ensures TypesCLike.Decode(TargetFamily, j, prior) == TypesCLike.Stored(TargetFamily, j, TargetFromJson(j, prior))
  {
    TargetLabelsAgree();
    hide TargetCase, TargetEncodable, Select;
  }

  /** The C-like `Target` has everything the tagged struct relies on. */
  lemma TargetLawful()
    ensures TypesCLike.Lawful(TargetFamily)
  {
    TargetLabelsAgree();
    TargetLabelsDistinct();
    hide TargetToJson, TargetPayloadToJson, TargetFromJson, TargetCase, TargetDecodeCase, TargetIndex, TargetEncodable, Select, Distinct;
    forall u: Target
      ensures TargetIndex(u) <= |CTargetLabels|
      ensures TargetIndex(u) == 0 ==> TargetToJson(u) == Err(InvalidDefaultVariant)
      ensures TargetIndex(u) != 0 && TargetPayloadToJson(u).Err? ==> TargetToJson(u) == Err(TargetPayloadToJson(u).error)
      ensures TargetIndex(u) != 0 && TargetPayloadToJson(u).Ok? ==>
        TargetToJson(u) == Ok(Obj([(CTargetLabels[TargetIndex(u) - 1], TargetPayloadToJson(u).value)]))
    {
      TargetToJsonShape(u);
    }
    forall k: nat, payload | 1 <= k <= |CTargetLabels| && TargetDecodeCase(k, payload).Ok?
      ensures TargetIndex(TargetDecodeCase(k, payload).value) == k && TargetEncodable(TargetDecodeCase(k, payload).value)
    {
      TargetDecodeCaseIndex(k, payload);
    }
    forall u: Target | TargetToJson(u).Ok?
      ensures TargetEncodable(u)
    {
      TargetRoundTrip(u, u);
    }
    forall j, prior: Target
      ensures TypesCLike.Decode(TargetFamily, j, prior) == TypesCLike.Stored(TargetFamily, j, TargetFromJson(j, prior))
    {
      TargetFromJsonSelects(j, prior);
    }
    forall u, prior: Target | TargetToJson(u).Ok?
      ensures TargetFromJson(TargetToJson(u).value, prior) == Ok(u)
    {
      TargetRoundTrip(u, prior);
    }
    TargetToJsonShape(Target.Invalid);
  }

  // AreaShape

  /** The labels the C-like `AreaShape` writes, in case order. */
  const CAreaShapeLabels: seq<string> := ["Circle", "Cone", "ConeCut", "WideLine"]

  /** Case by case, the C-like header uses the labels of the `std::variant` form. */
  lemma AreaShapeLabelsAgree()
    ensures CAreaShapeLabels == AreaShapeLabels
  {
  }

  /**
   * `payload.get<Payload_k>()` for case `k`; no payload of this family holds
   * a tagged struct, so storing it cannot fail. Any other number names no
   * case.
   */
  function AreaShapeDecodeCase(k: nat, payload: Json): Outcome<AreaShape>
  {
    if 1 <= k <= |AreaShapeLabels| then AreaShapeCase(k, payload) else Err(InvalidVariant)
  }

  const AreaShapeFamily: TypesCLike.Family<AreaShape> :=
    TypesCLike.Family(CAreaShapeLabels, AreaShapeIndex, AreaShape.Invalid, AreaShapeEncodable, AreaShapePayloadToJson, AreaShapeDecodeCase, AreaShapeToJson, AreaShapeFromJson)

  /** The decoder of case `k` stores a value of case `k` that can be copied. */
  lemma AreaShapeDecodeCaseIndex(k: nat, payload: Json)
    requires 1 <= k <= |AreaShapeLabels|
    ensures AreaShapeDecodeCase(k, payload).Ok? ==>
      AreaShapeIndex(AreaShapeDecodeCase(k, payload).value) == k && AreaShapeEncodable(AreaShapeDecodeCase(k, payload).value)
  {
    hide AreaShapeCircleFromJson, AreaShapeConeFromJson, AreaShapeConeCutFromJson, AreaShapeWideLineFromJson, GetAreaShapeCircle, GetAreaShapeCone, GetAreaShapeConeCut, GetAreaShapeWideLine;
  }

  /** A valid case encodes as its label mapped to its payload. */
  lemma AreaShapeToJsonShape(u: AreaShape)
    ensures AreaShapeIndex(u) <= |AreaShapeLabels|
    ensures u.Invalid? <==> AreaShapeIndex(u) == 0
    ensures AreaShapeIndex(u) == 0 ==> AreaShapeToJson(u) == Err(InvalidDefaultVariant)
    ensures AreaShapeIndex(u) != 0 && AreaShapePayloadToJson(u).Err? ==> AreaShapeToJson(u) == Err(AreaShapePayloadToJson(u).error)
    ensures AreaShapeIndex(u) != 0 && AreaShapePayloadToJson(u).Ok? ==>
      AreaShapeToJson(u) == Ok(Obj([(AreaShapeLabels[AreaShapeIndex(u) - 1], AreaShapePayloadToJson(u).value)]))
  {
    hide AreaShapeCircleToJson, AreaShapeConeToJson, AreaShapeConeCutToJson, AreaShapeWideLineToJson;
  }

  /**
   * The `std::variant` decoder is the selection every tagged struct
   * performs, and what it selects can always be stored.
   */
  lemma AreaShapeFromJsonSelects(j: Json, prior: AreaShape)
    ensures AreaShapeFromJson(j, prior) == TypesCLike.Decode(AreaShapeFamily, j, prior)
    ensures TypesCLike.Decode(AreaShapeFamily, j, prior) == TypesCLike.Stored(AreaShapeFamily, j, AreaShapeFromJson(j, prior))
  {
    AreaShapeLabelsAgree();
    hide AreaShapeCase, AreaShapeEncodable, Select;
    match Select(AreaShapeLabels, j)
    case Selected(k, payload) =>
      AreaShapeDecodeCaseIndex(k, payload);
    case _ =>
  }

  /** The C-like `AreaShape` has everything the tagged struct relies on. */
  lemma AreaShapeLawful()
    ensures TypesCLike.Lawful(AreaShapeFamily)
  {
    AreaShapeLabelsAgree();
    AreaShapeLabelsDistinct();
    hide AreaShapeToJson, AreaShapePayloadToJson, AreaShapeFromJson, AreaShapeCase, AreaShapeDecodeCase, AreaShapeIndex, AreaShapeEncodable, Select, Distinct;
    forall u: AreaShape
      ensures AreaShapeIndex(u) <= |CAreaShapeLabels|
      ensures AreaShapeIndex(u) == 0 ==> AreaShapeToJson(u) == Err(InvalidDefaultVariant)
      ensures AreaShapeIndex(u) != 0 && AreaShapePayloadToJson(u).Err? ==> AreaShapeToJson(u) == Err(AreaShapePayloadToJson(u).error)
      ensures AreaShapeIndex(u) != 0 && AreaShapePayloadToJson(u).Ok? ==>
        AreaShapeToJson(u) == Ok(Obj([(CAreaShapeLabels[AreaShapeIndex(u) - 1], AreaShapePayloadToJson(u).value)]))
    {
      AreaShapeToJsonShape(u);
    }
    forall k: nat, payload | 1 <= k <= |CAreaShapeLabels| && AreaShapeDecodeCase(k, payload).Ok?
      ensures AreaShapeIndex(AreaShapeDecodeCase(k, payload).value) == k && AreaShapeEncodable(AreaShapeDecodeCase(k, payload).value)
    {
      AreaShapeDecodeCaseIndex(k, payload);
    }
    forall u: AreaShape | AreaShapeToJson(u).Ok?
      ensures AreaShapeEncodable(u)
    {
      AreaShapeRoundTrip(u, u);
    }
    forall j, prior: AreaShape
      ensures TypesCLike.Decode(AreaShapeFamily, j, prior) == TypesCLike.Stored(AreaShapeFamily, j, AreaShapeFromJson(j, prior))
    {
      AreaShapeFromJsonSelects(j, prior);
    }
    forall u, prior: AreaShape | AreaShapeToJson(u).Ok?
      ensures AreaShapeFromJson(AreaShapeToJson(u).value, prior) == Ok(u)
    {
      AreaShapeRoundTrip(u, prior);
    }
    AreaShapeToJsonShape(AreaShape.Invalid);
  }

  // AbilityEffectSpecific

  /** The labels the C-like `AbilityEffectSpecific` writes, in case order. */
  const CAbilityEffectSpecificLabels: seq<string> := ["DamageArea", "DamageOverTime", "LinkedFire", "SpellOnEntityNearby", "TimedSpell", "Collector", "Aura", "MovingIntervalCast", "Other"]

  /** Case by case, the C-like header uses the labels of the `std::variant` form. */
  lemma AbilityEffectSpecificLabelsAgree()
    ensures CAbilityEffectSpecificLabels == AbilityEffectSpecificLabels
  {
  }

  /**
   * `payload.get<Payload_k>()` stored into the union for case `k`. A payload
   * that holds a tagged struct holding `Invalid` is refused by that
   * struct's `operator=`; any other number names no case.
   */
  function AbilityEffectSpecificDecodeCase(k: nat, payload: Json): Outcome<AbilityEffectSpecific>
  {
    if 1 <= k <= |AbilityEffectSpecificLabels| then
      var u :- AbilityEffectSpecificCase(k, payload);
      if AbilityEffectSpecificEncodable(u) then Ok(u) else Err(InvalidDefaultVariant)
    else Err(InvalidVariant)
  }

  const AbilityEffectSpecificFamily: TypesCLike.Family<AbilityEffectSpecific> :=
    TypesCLike.Family(CAbilityEffectSpecificLabels, AbilityEffectSpecificIndex, AbilityEffectSpecific.Invalid, AbilityEffectSpecificEncodable, AbilityEffectSpecificPayloadToJson, AbilityEffectSpecificDecodeCase, AbilityEffectSpecificToJson, AbilityEffectSpecificFromJson)

  /** The decoder of case `k` stores a value of case `k` that can be copied. */
  lemma AbilityEffectSpecificDecodeCaseIndex(k: nat, payload: Json)
    requires 1 <= k <= |AbilityEffectSpecificLabels|
    ensures AbilityEffectSpecificDecodeCase(k, payload).Ok? ==>
      AbilityEffectSpecificIndex(AbilityEffectSpecificDecodeCase(k, payload).value) == k && AbilityEffectSpecificEncodable(AbilityEffectSpecificDecodeCase(k, payload).value)
  {
    hide AbilityEffectSpecificDamageAreaFromJson, AbilityEffectSpecificDamageOverTimeFromJson, AbilityEffectSpecificLinkedFireFromJson, AbilityEffectSpecificSpellOnEntityNearbyFromJson, AbilityEffectSpecificTimedSpellFromJson, AbilityEffectSpecificCollectorFromJson, AbilityEffectSpecificAuraFromJson, AbilityEffectSpecificMovingIntervalCastFromJson, GetAbilityEffectSpecificDamageArea, GetAbilityEffectSpecificDamageOverTime, GetAbilityEffectSpecificLinkedFire, GetAbilityEffectSpecificSpellOnEntityNearby, GetAbilityEffectSpecificTimedSpell, GetAbilityEffectSpecificCollector, GetAbilityEffectSpecificAura, GetAbilityEffectSpecificMovingIntervalCast;
  }

  /** A valid case encodes as its label mapped to its payload. */
  lemma AbilityEffectSpecificToJsonShape(u: AbilityEffectSpecific)
    ensures AbilityEffectSpecificIndex(u) <= |AbilityEffectSpecificLabels|
    ensures u.Invalid? <==> AbilityEffectSpecificIndex(u) == 0
    ensures AbilityEffectSpecificIndex(u) == 0 ==> AbilityEffectSpecificToJson(u) == Err(InvalidDefaultVariant)
    ensures AbilityEffectSpecificIndex(u) != 0 && AbilityEffectSpecificPayloadToJson(u).Err? ==> AbilityEffectSpecificToJson(u) == Err(AbilityEffectSpecificPayloadToJson(u).error)
    ensures AbilityEffectSpecificIndex(u) != 0 && AbilityEffectSpecificPayloadToJson(u).Ok? ==>
      AbilityEffectSpecificToJson(u) == Ok(Obj([(AbilityEffectSpecificLabels[AbilityEffectSpecificIndex(u) - 1], AbilityEffectSpecificPayloadToJson(u).value)]))
  {
    hide AbilityEffectSpecificDamageAreaToJson, AbilityEffectSpecificDamageOverTimeToJson, AbilityEffectSpecificLinkedFireToJson, AbilityEffectSpecificSpellOnEntityNearbyToJson, AbilityEffectSpecificTimedSpellToJson, AbilityEffectSpecificCollectorToJson, AbilityEffectSpecificAuraToJson, AbilityEffectSpecificMovingIntervalCastToJson;
  }

  /**
   * The C-like `from_json` is the selection every tagged struct performs,
   * and decodes as the `std::variant` form does, except that a selected
   * payload holding a tagged struct that holds `Invalid` fails with
   * "Invalid default variant!" instead of being kept.
   */
  lemma AbilityEffectSpecificFromJsonSelects(j: Json, prior: AbilityEffectSpecific)
    ensures TypesCLike.Decode(AbilityEffectSpecificFamily, j, prior) == TypesCLike.Stored(AbilityEffectSpecificFamily, j, AbilityEffectSpecificFromJson(j, prior))
  {
    AbilityEffectSpecificLabelsAgree();
    hide AbilityEffectSpecificCase, AbilityEffectSpecificEncodable, Select;
  }

  /** The C-like `AbilityEffectSpecific` has everything the tagged struct relies on. */
  lemma AbilityEffectSpecificLawful()
    ensures TypesCLike.Lawful(AbilityEffectSpecificFamily)
  {
    AbilityEffectSpecificLabelsAgree();
    AbilityEffectSpecificLabelsDistinct();
    hide AbilityEffectSpecificToJson, AbilityEffectSpecificPayloadToJson, AbilityEffectSpecificFromJson, AbilityEffectSpecificCase, AbilityEffectSpecificDecodeCase, AbilityEffectSpecificIndex, AbilityEffectSpecificEncodable, Select, Distinct;
    forall u: AbilityEffectSpecific
      ensures AbilityEffectSpecificIndex(u) <= |CAbilityEffectSpecificLabels|
      ensures AbilityEffectSpecificIndex(u) == 0 ==> AbilityEffectSpecificToJson(u) == Err(InvalidDefaultVariant)
      ensures AbilityEffectSpecificIndex(u) != 0 && AbilityEffectSpecificPayloadToJson(u).Err? ==> AbilityEffectSpecificToJson(u) == Err(AbilityEffectSpecificPayloadToJson(u).error)
      ensures AbilityEffectSpecificIndex(u) != 0 && AbilityEffectSpecificPayloadToJson(u).Ok? ==>
        AbilityEffectSpecificToJson(u) == Ok(Obj([(CAbilityEffectSpecificLabels[AbilityEffectSpecificIndex(u) - 1], AbilityEffectSpecificPayloadToJson(u).value)]))
    {
      AbilityEffectSpecificToJsonShape(u);
    }
    forall k: nat, payload | 1 <= k <= |CAbilityEffectSpecificLabels| && AbilityEffectSpecificDecodeCase(k, payload).Ok?
      ensures AbilityEffectSpecificIndex(AbilityEffectSpecificDecodeCase(k, payload).value) == k && AbilityEffectSpecificEncodable(AbilityEffectSpecificDecodeCase(k, payload).value)
    {
      AbilityEffectSpecificDecodeCaseIndex(k, payload);
    }
    forall u: AbilityEffectSpecific | AbilityEffectSpecificToJson(u).Ok?
      ensures AbilityEffectSpecificEncodable(u)
    {
      AbilityEffectSpecificRoundTrip(u, u);
    }
    forall j, prior: AbilityEffectSpecific
      ensures TypesCLike.Decode(AbilityEffectSpecificFamily, j, prior) == TypesCLike.Stored(AbilityEffectSpecificFamily, j, AbilityEffectSpecificFromJson(j, prior))
    {
      AbilityEffectSpecificFromJsonSelects(j, prior);
    }
    forall u, prior: AbilityEffectSpecific | AbilityEffectSpecificToJson(u).Ok?
      ensures AbilityEffectSpecificFromJson(AbilityEffectSpecificToJson(u).value, prior) == Ok(u)
    {
      AbilityEffectSpecificRoundTrip(u, prior);
    }
    AbilityEffectSpecificToJsonShape(AbilityEffectSpecific.Invalid);
  }

  // MountState

  /** The labels the C-like `MountState` writes, in case order. */
  const CMountStateLabels: seq<string> := ["Unmounted", "MountingSquad", "MountingFigure", "MountedSquad", "MountedFigure", "Unknown"]

  /** Case by case, the C-like header uses the labels of the `std::variant` form. */
  lemma MountStateLabelsAgree()
    ensures CMountStateLabels == MountStateLabels
  {
  }

  /**
   * `payload.get<Payload_k>()` for case `k`; no payload of this family holds
   * a tagged struct, so storing it cannot fail. Any other number names no
   * case.
   */
  function MountStateDecodeCase(k: nat, payload: Json): Outcome<MountState>
  {
    if 1 <= k <= |MountStateLabels| then MountStateCase(k, payload) else Err(InvalidVariant)
  }

  const MountStateFamily: TypesCLike.Family<MountState> :=
    TypesCLike.Family(CMountStateLabels, MountStateIndex, MountState.Invalid, MountStateEncodable, MountStatePayloadToJson, MountStateDecodeCase, MountStateToJson, MountStateFromJson)

  /** The decoder of case `k` stores a value of case `k` that can be copied. */
  lemma MountStateDecodeCaseIndex(k: nat, payload: Json)
    requires 1 <= k <= |MountStateLabels|
    ensures MountStateDecodeCase(k, payload).Ok? ==>
      MountStateIndex(MountStateDecodeCase(k, payload).value) == k && MountStateEncodable(MountStateDecodeCase(k, payload).value)
  {
    hide MountStateMountingSquadFromJson, MountStateMountingFigureFromJson, MountStateMountedSquadFromJson, MountStateMountedFigureFromJson, MountStateUnknownFromJson, GetMountStateMountingSquad, GetMountStateMountingFigure, GetMountStateMountedSquad, GetMountStateMountedFigure, GetMountStateUnknown;
  }

  /** A valid case encodes as its label mapped to its payload. */
  lemma MountStateToJsonShape(u: MountState)
    ensures MountStateIndex(u) <= |MountStateLabels|
    ensures u.Invalid? <==> MountStateIndex(u) == 0
    ensures MountStateIndex(u) == 0 ==> MountStateToJson(u) == Err(InvalidDefaultVariant)
    ensures MountStateIndex(u) != 0 && MountStatePayloadToJson(u).Err? ==> MountStateToJson(u) == Err(MountStatePayloadToJson(u).error)
    ensures MountStateIndex(u) != 0 && MountStatePayloadToJson(u).Ok? ==>
      MountStateToJson(u) == Ok(Obj([(MountStateLabels[MountStateIndex(u) - 1], MountStatePayloadToJson(u).value)]))
  {
    hide MountStateMountingSquadToJson, MountStateMountingFigureToJson, MountStateMountedSquadToJson, MountStateMountedFigureToJson, MountStateUnknownToJson;
  }

  /**
   * The `std::variant` decoder is the selection every tagged struct
   * performs, and what it selects can always be stored.
   */
  lemma MountStateFromJsonSelects(j: Json, prior: MountState)
    ensures MountStateFromJson(j, prior) == TypesCLike.Decode(MountStateFamily, j, prior)
    ensures TypesCLike.Decode(MountStateFamily, j, prior) == TypesCLike.Stored(MountStateFamily, j, MountStateFromJson(j, prior))
  {
    MountStateLabelsAgree();
    hide MountStateCase, MountStateEncodable, Select;
    match Select(MountStateLabels, j)
    case Selected(k, payload) =>
      MountStateDecodeCaseIndex(k, payload);
    case _ =>
  }

  /** The C-like `MountState` has everything the tagged struct relies on. */
  lemma MountStateLawful()
    ensures TypesCLike.Lawful(MountStateFamily)
  {
    MountStateLabelsAgree();
    MountStateLabelsDistinct();
    hide MountStateToJson, MountStatePayloadToJson, MountStateFromJson, MountStateCase, MountStateDecodeCase, MountStateIndex, MountStateEncodable, Select, Distinct;
    forall u: MountState
      ensures MountStateIndex(u) <= |CMountStateLabels|
      ensures MountStateIndex(u) == 0 ==> MountStateToJson(u) == Err(InvalidDefaultVariant)
      ensures MountStateIndex(u) != 0 && MountStatePayloadToJson(u).Err? ==> MountStateToJson(u) == Err(MountStatePayloadToJson(u).error)
      ensures MountStateIndex(u) != 0 && MountStatePayloadToJson(u).Ok? ==>
        MountStateToJson(u) == Ok(Obj([(CMountStateLabels[MountStateIndex(u) - 1], MountStatePayloadToJson(u).value)]))
    {
      MountStateToJsonShape(u);
    }
    forall k: nat, payload | 1 <= k <= |CMountStateLabels| && MountStateDecodeCase(k, payload).Ok?
      ensures MountStateIndex(MountStateDecodeCase(k, payload).value) == k && MountStateEncodable(MountStateDecodeCase(k, payload).value)
    {
      MountStateDecodeCaseIndex(k, payload);
    }
    forall u: MountState | MountStateToJson(u).Ok?
      ensures MountStateEncodable(u)
    {
      MountStateRoundTrip(u, u);
    }
    forall j, prior: MountState
      ensures TypesCLike.Decode(MountStateFamily, j, prior) == TypesCLike.Stored(MountStateFamily, j, MountStateFromJson(j, prior))
    {
      MountStateFromJsonSelects(j, prior);
    }
    forall u, prior: MountState | MountStateToJson(u).Ok?
      ensures MountStateFromJson(MountStateToJson(u).value, prior) == Ok(u)
    {
      MountStateRoundTrip(u, prior);
    }
    MountStateToJsonShape(MountState.Invalid);
  }

  // Aspect

  /** The labels the C-like `Aspect` writes, in case order. */
  const CAspectLabels: seq<string> := ["PowerProduction", "Health", "Combat", "ModeChange", "Ammunition", "SuperWeaponShadow", "WormMovement", "NPCTag", "PlayerKit", "Loot", "Immunity", "Turret", "Tunnel", "MountBarrier", "SpellMemory", "Portal", "Hate", "BarrierGate", "Attackable", "SquadRefill", "PortalExit", "ConstructionData", "SuperWeaponShadowBomb", "RepairBarrierSet", "ConstructionRepair", "Follower", "CollisionBase", "EditorUniqueID", "Roam"]

  /** Case by case, the C-like header uses the labels of the `std::variant` form. */
  lemma AspectLabelsAgree()
    ensures CAspectLabels == AspectLabels
  {
  }

  /**
   * `payload.get<Payload_k>()` stored into the union for case `k`. A payload
   * that holds a tagged struct holding `Invalid` is refused by that
   * struct's `operator=`; any other number names no case.
   */
  function AspectDecodeCase(k: nat, payload: Json): Outcome<Aspect>
  {
    if 1 <= k <= |AspectLabels| then
      var u :- AspectCase(k, payload);
      if AspectEncodable(u) then Ok(u) else Err(InvalidDefaultVariant)
    else Err(InvalidVariant)
  }

  const AspectFamily: TypesCLike.Family<Aspect> :=
    TypesCLike.Family(CAspectLabels, AspectIndex, Aspect.Invalid, AspectEncodable, AspectPayloadToJson, AspectDecodeCase, AspectToJson, AspectFromJson)

  /** The decoder of case `k` stores a value of case `k`, for cases 1 to 5. */
  lemma AspectDecodeCaseIndexPart1(k: nat, payload: Json)
    requires 1 <= k <= 5
    ensures AspectDecodeCase(k, payload).Ok? ==>
      AspectIndex(AspectDecodeCase(k, payload).value) == k && AspectEncodable(AspectDecodeCase(k, payload).value)
  {
    hide AspectPowerProductionFromJson, AspectHealthFromJson, AspectModeChangeFromJson, AspectMountBarrierFromJson, AspectBarrierGateFromJson, AspectConstructionDataFromJson, GetAspectPowerProduction, GetAspectHealth, GetAspectModeChange, GetAspectMountBarrier, GetAspectBarrierGate, GetAspectConstructionData;
  }

  /** The decoder of case `k` stores a value of case `k`, for cases 6 to 11. */
  lemma AspectDecodeCaseIndexPart2(k: nat, payload: Json)
    requires 6 <= k <= 11
    ensures AspectDecodeCase(k, payload).Ok? ==>
      AspectIndex(AspectDecodeCase(k, payload).value) == k && AspectEncodable(AspectDecodeCase(k, payload).value)
  {
    hide AspectPowerProductionFromJson, AspectHealthFromJson, AspectModeChangeFromJson, AspectMountBarrierFromJson, AspectBarrierGateFromJson, AspectConstructionDataFromJson, GetAspectPowerProduction, GetAspectHealth, GetAspectModeChange, GetAspectMountBarrier, GetAspectBarrierGate, GetAspectConstructionData;
  }

  /** The decoder of case `k` stores a value of case `k`, for cases 12 to 17. */
  lemma AspectDecodeCaseIndexPart3(k: nat, payload: Json)
    requires 12 <= k <= 17
    ensures AspectDecodeCase(k, payload).Ok? ==>
      AspectIndex(AspectDecodeCase(k, payload).value) == k && AspectEncodable(AspectDecodeCase(k, payload).value)
  {
    hide AspectPowerProductionFromJson, AspectHealthFromJson, AspectModeChangeFromJson, AspectMountBarrierFromJson, AspectBarrierGateFromJson, AspectConstructionDataFromJson, GetAspectPowerProduction, GetAspectHealth, GetAspectModeChange, GetAspectMountBarrier, GetAspectBarrierGate, GetAspectConstructionData;
  }

  /** The decoder of case `k` stores a value of case `k`, for cases 18 to 23. */
  lemma AspectDecodeCaseIndexPart4(k: nat, payload: Json)
    requires 18 <= k <= 23
    ensures AspectDecodeCase(k, payload).Ok? ==>
      AspectIndex(AspectDecodeCase(k, payload).value) == k && AspectEncodable(AspectDecodeCase(k, payload).value)
  {
    hide AspectPowerProductionFromJson, AspectHealthFromJson, AspectModeChangeFromJson, AspectMountBarrierFromJson, AspectBarrierGateFromJson, AspectConstructionDataFromJson, GetAspectPowerProduction, GetAspectHealth, GetAspectModeChange, GetAspectMountBarrier, GetAspectBarrierGate, GetAspectConstructionData;
  }

  /** The decoder of case `k` stores a value of case `k`, for cases 24 to 29. */
  lemma AspectDecodeCaseIndexPart5(k: nat, payload: Json)
    requires 24 <= k <= 29
    ensures AspectDecodeCase(k, payload).Ok? ==>
      AspectIndex(AspectDecodeCase(k, payload).value) == k && AspectEncodable(AspectDecodeCase(k, payload).value)
  {
    hide AspectPowerProductionFromJson, AspectHealthFromJson, AspectModeChangeFromJson, AspectMountBarrierFromJson, AspectBarrierGateFromJson, AspectConstructionDataFromJson, GetAspectPowerProduction, GetAspectHealth, GetAspectModeChange, GetAspectMountBarrier, GetAspectBarrierGate, GetAspectConstructionData;
  }

  /** The decoder of case `k` stores a value of case `k` that can be copied. */
  lemma AspectDecodeCaseIndex(k: nat, payload: Json)
    requires 1 <= k <= |AspectLabels|
    ensures AspectDecodeCase(k, payload).Ok? ==>
      AspectIndex(AspectDecodeCase(k, payload).value) == k && AspectEncodable(AspectDecodeCase(k, payload).value)
  {
    if k <= 5 {
      AspectDecodeCaseIndexPart1(k, payload);
    } else if k <= 11 {
      AspectDecodeCaseIndexPart2(k, payload);
    } else if k <= 17 {
      AspectDecodeCaseIndexPart3(k, payload);
    } else if k <= 23 {
      AspectDecodeCaseIndexPart4(k, payload);
    } else {
      AspectDecodeCaseIndexPart5(k, payload);
    }
  }

  /** How cases 0 to 5 encode. */
  lemma AspectToJsonShapePart1(u: Aspect)
    requires 0 <= AspectIndex(u) <= 5
    ensures AspectIndex(u) <= |AspectLabels|
    ensures u.Invalid? <==> AspectIndex(u) == 0
    ensures AspectIndex(u) == 0 ==> AspectToJson(u) == Err(InvalidDefaultVariant)
    ensures AspectIndex(u) != 0 && AspectPayloadToJson(u).Err? ==> AspectToJson(u) == Err(AspectPayloadToJson(u).error)
    ensures AspectIndex(u) != 0 && AspectPayloadToJson(u).Ok? ==>
      AspectToJson(u) == Ok(Obj([(AspectLabels[AspectIndex(u) - 1], AspectPayloadToJson(u).value)]))
  {
    hide AspectPowerProductionToJson, AspectHealthToJson, AspectModeChangeToJson, AspectMountBarrierToJson, AspectBarrierGateToJson, AspectConstructionDataToJson;
    match u
    case Invalid =>
    case PowerProduction(_) =>
    case Health(_) =>
    case Combat =>
    case ModeChange(_) =>
    case Ammunition =>
    case _ => assert false;
  }

  /** How cases 6 to 11 encode. */
  lemma AspectToJsonShapePart2(u: Aspect)
    requires 6 <= AspectIndex(u) <= 11
    ensures AspectIndex(u) <= |AspectLabels|
    ensures u.Invalid? <==> AspectIndex(u) == 0
    ensures AspectIndex(u) == 0 ==> AspectToJson(u) == Err(InvalidDefaultVariant)
    ensures AspectIndex(u) != 0 && AspectPayloadToJson(u).Err? ==> AspectToJson(u) == Err(AspectPayloadToJson(u).error)
    ensures AspectIndex(u) != 0 && AspectPayloadToJson(u).Ok? ==>
      AspectToJson(u) == Ok(Obj([(AspectLabels[AspectIndex(u) - 1], AspectPayloadToJson(u).value)]))
  {
    hide AspectPowerProductionToJson, AspectHealthToJson, AspectModeChangeToJson, AspectMountBarrierToJson, AspectBarrierGateToJson, AspectConstructionDataToJson;
    match u
    case SuperWeaponShadow =>
    case WormMovement =>
    case NPCTag =>
    case PlayerKit =>
    case Loot =>
    case Immunity =>
    case _ => assert false;
  }

  /** How cases 12 to 17 encode. */
  lemma AspectToJsonShapePart3(u: Aspect)
    requires 12 <= AspectIndex(u) <= 17
    ensures AspectIndex(u) <= |AspectLabels|
    ensures u.Invalid? <==> AspectIndex(u) == 0
    ensures AspectIndex(u) == 0 ==> AspectToJson(u) == Err(InvalidDefaultVariant)
    ensures AspectIndex(u) != 0 && AspectPayloadToJson(u).Err? ==> AspectToJson(u) == Err(AspectPayloadToJson(u).error)
    ensures AspectIndex(u) != 0 && AspectPayloadToJson(u).Ok? ==>
      AspectToJson(u) == Ok(Obj([(AspectLabels[AspectIndex(u) - 1], AspectPayloadToJson(u).value)]))
  {
    hide AspectPowerProductionToJson, AspectHealthToJson, AspectModeChangeToJson, AspectMountBarrierToJson, AspectBarrierGateToJson, AspectConstructionDataToJson;
    match u
    case Turret =>
    case Tunnel =>
    case MountBarrier(_) =>
    case SpellMemory =>
    case Portal =>
    case Hate =>
    case _ => assert false;
  }

  /** How cases 18 to 23 encode. */
  lemma AspectToJsonShapePart4(u: Aspect)
    requires 18 <= AspectIndex(u) <= 23
    ensures AspectIndex(u) <= |AspectLabels|
    ensures u.Invalid? <==> AspectIndex(u) == 0
    ensures AspectIndex(u) == 0 ==> AspectToJson(u) == Err(InvalidDefaultVariant)
    ensures AspectIndex(u) != 0 && AspectPayloadToJson(u).Err? ==> AspectToJson(u) == Err(AspectPayloadToJson(u).error)
    ensures AspectIndex(u) != 0 && AspectPayloadToJson(u).Ok? ==>
      AspectToJson(u) == Ok(Obj([(AspectLabels[AspectIndex(u) - 1], AspectPayloadToJson(u).value)]))
  {
    hide AspectPowerProductionToJson, AspectHealthToJson, AspectModeChangeToJson, AspectMountBarrierToJson, AspectBarrierGateToJson, AspectConstructionDataToJson;
    match u
    case BarrierGate(_) =>
    case Attackable =>
    case SquadRefill =>
    case PortalExit =>
    case ConstructionData(_) =>
    case SuperWeaponShadowBomb =>
    case _ => assert false;
  }

  /** How cases 24 to 29 encode. */
  lemma AspectToJsonShapePart5(u: Aspect)
    requires 24 <= AspectIndex(u) <= 29
    ensures AspectIndex(u) <= |AspectLabels|
    ensures u.Invalid? <==> AspectIndex(u) == 0
    ensures AspectIndex(u) == 0 ==> AspectToJson(u) == Err(InvalidDefaultVariant)
    ensures AspectIndex(u) != 0 && AspectPayloadToJson(u).Err? ==> AspectToJson(u) == Err(AspectPayloadToJson(u).error)
    ensures AspectIndex(u) != 0 && AspectPayloadToJson(u).Ok? ==>
      AspectToJson(u) == Ok(Obj([(AspectLabels[AspectIndex(u) - 1], AspectPayloadToJson(u).value)]))
  {
    hide AspectPowerProductionToJson, AspectHealthToJson, AspectModeChangeToJson, AspectMountBarrierToJson, AspectBarrierGateToJson, AspectConstructionDataToJson;
    match u
    case RepairBarrierSet =>
    case ConstructionRepair =>
    case Follower =>
    case CollisionBase =>
    case EditorUniqueID =>
    case Roam =>
    case _ => assert false;
  }

  /** A valid case encodes as its label mapped to its payload. */
  lemma AspectToJsonShape(u: Aspect)
    ensures AspectIndex(u) <= |AspectLabels|
    ensures u.Invalid? <==> AspectIndex(u) == 0
    ensures AspectIndex(u) == 0 ==> AspectToJson(u) == Err(InvalidDefaultVariant)
    ensures AspectIndex(u) != 0 && AspectPayloadToJson(u).Err? ==> AspectToJson(u) == Err(AspectPayloadToJson(u).error)
    ensures AspectIndex(u) != 0 && AspectPayloadToJson(u).Ok? ==>
      AspectToJson(u) == Ok(Obj([(AspectLabels[AspectIndex(u) - 1], AspectPayloadToJson(u).value)]))
  {
    hide AspectPowerProductionToJson, AspectHealthToJson, AspectModeChangeToJson, AspectMountBarrierToJson, AspectBarrierGateToJson, AspectConstructionDataToJson;
    if AspectIndex(u) <= 5 {
      AspectToJsonShapePart1(u);
    } else if AspectIndex(u) <= 11 {
      AspectToJsonShapePart2(u);
    } else if AspectIndex(u) <= 17 {
      AspectToJsonShapePart3(u);
    } else if AspectIndex(u) <= 23 {
      AspectToJsonShapePart4(u);
    } else {
      AspectToJsonShapePart5(u);
    }
  }

  /**
   * The C-like `from_json` is the selection every tagged struct performs,
   * and decodes as the `std::variant` form does, except that a selected
   * payload holding a tagged struct that holds `Invalid` fails with
   * "Invalid default variant!" instead of being kept.
   */
  lemma AspectFromJsonSelects(j: Json, prior: Aspect)
    ensures TypesCLike.Decode(AspectFamily, j, prior) == TypesCLike.Stored(AspectFamily, j, AspectFromJson(j, prior))
  {
    AspectLabelsAgree();
    hide AspectCase, AspectEncodable, Select;
  }

  /** The C-like `Aspect` has everything the tagged struct relies on. */
  lemma AspectLawful()
    ensures TypesCLike.Lawful(AspectFamily)
  {
    AspectLabelsAgree();
    AspectLabelsDistinct();
    hide AspectToJson, AspectPayloadToJson, AspectFromJson, AspectCase, AspectDecodeCase, AspectIndex, AspectEncodable, Select, Distinct;
    forall u: Aspect
      ensures AspectIndex(u) <= |CAspectLabels|
      ensures AspectIndex(u) == 0 ==> AspectToJson(u) == Err(InvalidDefaultVariant)
      ensures AspectIndex(u) != 0 && AspectPayloadToJson(u).Err? ==> AspectToJson(u) == Err(AspectPayloadToJson(u).error)
      ensures AspectIndex(u) != 0 && AspectPayloadToJson(u).Ok? ==>
        AspectToJson(u) == Ok(Obj([(CAspectLabels[AspectIndex(u) - 1], AspectPayloadToJson(u).value)]))
    {
      AspectToJsonShape(u);
    }
    forall k: nat, payload | 1 <= k <= |CAspectLabels| && AspectDecodeCase(k, payload).Ok?
      ensures AspectIndex(AspectDecodeCase(k, payload).value) == k && AspectEncodable(AspectDecodeCase(k, payload).value)
    {
      AspectDecodeCaseIndex(k, payload);
    }
    forall u: Aspect | AspectToJson(u).Ok?
      ensures AspectEncodable(u)
    {
      AspectRoundTrip(u, u);
    }
    forall j, prior: Aspect
      ensures TypesCLike.Decode(AspectFamily, j, prior) == TypesCLike.Stored(AspectFamily, j, AspectFromJson(j, prior))
    {
      AspectFromJsonSelects(j, prior);
    }
    forall u, prior: Aspect | AspectToJson(u).Ok?
      ensures AspectFromJson(AspectToJson(u).value, prior) == Ok(u)
    {
      AspectRoundTrip(u, prior);
    }
    AspectToJsonShape(Aspect.Invalid);
  }

  // Job

  /** The labels the C-like `Job` writes, in case order. */
  const CJobLabels: seq<string> := ["NoJob", "Idle", "Goto", "AttackMelee", "CastSpell", "Die", "Talk", "ScriptTalk", "Freeze", "Spawn", "Cheer", "AttackSquad", "CastSpellSquad", "PushBack", "Stampede", "BarrierCrush", "BarrierGateToggle", "FlameThrower", "Construct", "Crush", "MountBarrierSquad", "MountBarrier", "ModeChangeSquad", "ModeChange", "SacrificeSquad", "UsePortalSquad", "Channel", "SpawnSquad", "LootTargetSquad", "Morph", "Unknown"]

  /** Case by case, the C-like header uses the labels of the `std::variant` form. */
  lemma JobLabelsAgree()
    ensures CJobLabels == JobLabels
  {
  }

  /**
   * `payload.get<Payload_k>()` stored into the union for case `k`. A payload
   * that holds a tagged struct holding `Invalid` is refused by that
   * struct's `operator=`; any other number names no case.
   */
  function JobDecodeCase(k: nat, payload: Json): Outcome<Job>
  {
    if 1 <= k <= |JobLabels| then
      var u :- JobCase(k, payload);
      if JobEncodable(u) then Ok(u) else Err(InvalidDefaultVariant)
    else Err(InvalidVariant)
  }

  const JobFamily: TypesCLike.Family<Job> :=
    TypesCLike.Family(CJobLabels, JobIndex, Job.Invalid, JobEncodable, JobPayloadToJson, JobDecodeCase, JobToJson, JobFromJson)

  /** The decoder of case `k` stores a value of case `k`, for cases 1 to 5. */
  lemma JobDecodeCaseIndexPart1(k: nat, payload: Json)
    requires 1 <= k <= 5
    ensures JobDecodeCase(k, payload).Ok? ==>
      JobIndex(JobDecodeCase(k, payload).value) == k && JobEncodable(JobDecodeCase(k, payload).value)
  {
    hide JobGotoFromJson, JobAttackMeleeFromJson, JobCastSpellFromJson, JobTalkFromJson, JobScriptTalkFromJson, JobFreezeFromJson, JobSpawnFromJson, JobAttackSquadFromJson, JobCastSpellSquadFromJson, JobPushBackFromJson, JobStampedeFromJson, JobFlameThrowerFromJson, JobConstructFromJson, JobCrushFromJson, JobMountBarrierSquadFromJson, JobMountBarrierFromJson, JobModeChangeSquadFromJson, JobModeChangeFromJson, JobSacrificeSquadFromJson, JobUsePortalSquadFromJson, JobChannelFromJson, JobLootTargetSquadFromJson, JobMorphFromJson, JobUnknownFromJson, GetJobGoto, GetJobAttackMelee, GetJobCastSpell, GetJobTalk, GetJobScriptTalk, GetJobFreeze, GetJobSpawn, GetJobAttackSquad, GetJobCastSpellSquad, GetJobPushBack, GetJobStampede, GetJobFlameThrower, GetJobConstruct, GetJobCrush, GetJobMountBarrierSquad, GetJobMountBarrier, GetJobModeChangeSquad, GetJobModeChange, GetJobSacrificeSquad, GetJobUsePortalSquad, GetJobChannel, GetJobLootTargetSquad, GetJobMorph, GetJobUnknown;
  }

  /** The decoder of case `k` stores a value of case `k`, for cases 6 to 11. */
  lemma JobDecodeCaseIndexPart2(k: nat, payload: Json)
    requires 6 <= k <= 11
    ensures JobDecodeCase(k, payload).Ok? ==>
      JobIndex(JobDecodeCase(k, payload).value) == k && JobEncodable(JobDecodeCase(k, payload).value)
  {
    hide JobGotoFromJson, JobAttackMeleeFromJson, JobCastSpellFromJson, JobTalkFromJson, JobScriptTalkFromJson, JobFreezeFromJson, JobSpawnFromJson, JobAttackSquadFromJson, JobCastSpellSquadFromJson, JobPushBackFromJson, JobStampedeFromJson, JobFlameThrowerFromJson, JobConstructFromJson, JobCrushFromJson, JobMountBarrierSquadFromJson, JobMountBarrierFromJson, JobModeChangeSquadFromJson, JobModeChangeFromJson, JobSacrificeSquadFromJson, JobUsePortalSquadFromJson, JobChannelFromJson, JobLootTargetSquadFromJson, JobMorphFromJson, JobUnknownFromJson, GetJobGoto, GetJobAttackMelee, GetJobCastSpell, GetJobTalk, GetJobScriptTalk, GetJobFreeze, GetJobSpawn, GetJobAttackSquad, GetJobCastSpellSquad, GetJobPushBack, GetJobStampede, GetJobFlameThrower, GetJobConstruct, GetJobCrush, GetJobMountBarrierSquad, GetJobMountBarrier, GetJobModeChangeSquad, GetJobModeChange, GetJobSacrificeSquad, GetJobUsePortalSquad, GetJobChannel, GetJobLootTargetSquad, GetJobMorph, GetJobUnknown;
  }

  /** The decoder of case `k` stores a value of case `k`, for cases 12 to 17. */
  lemma JobDecodeCaseIndexPart3(k: nat, payload: Json)
    requires 12 <= k <= 17
    ensures JobDecodeCase(k, payload).Ok? ==>
      JobIndex(JobDecodeCase(k, payload).value) == k && JobEncodable(JobDecodeCase(k, payload).value)
  {
    hide JobGotoFromJson, JobAttackMeleeFromJson, JobCastSpellFromJson, JobTalkFromJson, JobScriptTalkFromJson, JobFreezeFromJson, JobSpawnFromJson, JobAttackSquadFromJson, JobCastSpellSquadFromJson, JobPushBackFromJson, JobStampedeFromJson, JobFlameThrowerFromJson, JobConstructFromJson, JobCrushFromJson, JobMountBarrierSquadFromJson, JobMountBarrierFromJson, JobModeChangeSquadFromJson, JobModeChangeFromJson, JobSacrificeSquadFromJson, JobUsePortalSquadFromJson, JobChannelFromJson, JobLootTargetSquadFromJson, JobMorphFromJson, JobUnknownFromJson, GetJobGoto, GetJobAttackMelee, GetJobCastSpell, GetJobTalk, GetJobScriptTalk, GetJobFreeze, GetJobSpawn, GetJobAttackSquad, GetJobCastSpellSquad, GetJobPushBack, GetJobStampede, GetJobFlameThrower, GetJobConstruct, GetJobCrush, GetJobMountBarrierSquad, GetJobMountBarrier, GetJobModeChangeSquad, GetJobModeChange, GetJobSacrificeSquad, GetJobUsePortalSquad, GetJobChannel, GetJobLootTargetSquad, GetJobMorph, GetJobUnknown;
  }

  /** The decoder of case `k` stores a value of case `k`, for cases 18 to 23. */
  lemma JobDecodeCaseIndexPart4(k: nat, payload: Json)
    requires 18 <= k <= 23
    ensures JobDecodeCase(k, payload).Ok? ==>
      JobIndex(JobDecodeCase(k, payload).value) == k && JobEncodable(JobDecodeCase(k, payload).value)
  {
    hide JobGotoFromJson, JobAttackMeleeFromJson, JobCastSpellFromJson, JobTalkFromJson, JobScriptTalkFromJson, JobFreezeFromJson, JobSpawnFromJson, JobAttackSquadFromJson, JobCastSpellSquadFromJson, JobPushBackFromJson, JobStampedeFromJson, JobFlameThrowerFromJson, JobConstructFromJson, JobCrushFromJson, JobMountBarrierSquadFromJson, JobMountBarrierFromJson, JobModeChangeSquadFromJson, JobModeChangeFromJson, JobSacrificeSquadFromJson, JobUsePortalSquadFromJson, JobChannelFromJson, JobLootTargetSquadFromJson, JobMorphFromJson, JobUnknownFromJson, GetJobGoto, GetJobAttackMelee, GetJobCastSpell, GetJobTalk, GetJobScriptTalk, GetJobFreeze, GetJobSpawn, GetJobAttackSquad, GetJobCastSpellSquad, GetJobPushBack, GetJobStampede, GetJobFlameThrower, GetJobConstruct, GetJobCrush, GetJobMountBarrierSquad, GetJobMountBarrier, GetJobModeChangeSquad, GetJobModeChange, GetJobSacrificeSquad, GetJobUsePortalSquad, GetJobChannel, GetJobLootTargetSquad, GetJobMorph, GetJobUnknown;
  }

  /** The decoder of case `k` stores a value of case `k`, for cases 24 to 29. */
  lemma JobDecodeCaseIndexPart5(k: nat, payload: Json)
    requires 24 <= k <= 29
    ensures JobDecodeCase(k, payload).Ok? ==>
      JobIndex(JobDecodeCase(k, payload).value) == k && JobEncodable(JobDecodeCase(k, payload).value)
  {
    hide JobGotoFromJson, JobAttackMeleeFromJson, JobCastSpellFromJson, JobTalkFromJson, JobScriptTalkFromJson, JobFreezeFromJson, JobSpawnFromJson, JobAttackSquadFromJson, JobCastSpellSquadFromJson, JobPushBackFromJson, JobStampedeFromJson, JobFlameThrowerFromJson, JobConstructFromJson, JobCrushFromJson, JobMountBarrierSquadFromJson, JobMountBarrierFromJson, JobModeChangeSquadFromJson, JobModeChangeFromJson, JobSacrificeSquadFromJson, JobUsePortalSquadFromJson, JobChannelFromJson, JobLootTargetSquadFromJson, JobMorphFromJson, JobUnknownFromJson, GetJobGoto, GetJobAttackMelee, GetJobCastSpell, GetJobTalk, GetJobScriptTalk, GetJobFreeze, GetJobSpawn, GetJobAttackSquad, GetJobCastSpellSquad, GetJobPushBack, GetJobStampede, GetJobFlameThrower, GetJobConstruct, GetJobCrush, GetJobMountBarrierSquad, GetJobMountBarrier, GetJobModeChangeSquad, GetJobModeChange, GetJobSacrificeSquad, GetJobUsePortalSquad, GetJobChannel, GetJobLootTargetSquad, GetJobMorph, GetJobUnknown;
  }

  /** The decoder of case `k` stores a value of case `k`, for cases 30 to 31. */
  lemma JobDecodeCaseIndexPart6(k: nat, payload: Json)
    requires 30 <= k <= 31
    ensures JobDecodeCase(k, payload).Ok? ==>
      JobIndex(JobDecodeCase(k, payload).value) == k && JobEncodable(JobDecodeCase(k, payload).value)
  {
    hide JobGotoFromJson, JobAttackMeleeFromJson, JobCastSpellFromJson, JobTalkFromJson, JobScriptTalkFromJson, JobFreezeFromJson, JobSpawnFromJson, JobAttackSquadFromJson, JobCastSpellSquadFromJson, JobPushBackFromJson, JobStampedeFromJson, JobFlameThrowerFromJson, JobConstructFromJson, JobCrushFromJson, JobMountBarrierSquadFromJson, JobMountBarrierFromJson, JobModeChangeSquadFromJson, JobModeChangeFromJson, JobSacrificeSquadFromJson, JobUsePortalSquadFromJson, JobChannelFromJson, JobLootTargetSquadFromJson, JobMorphFromJson, JobUnknownFromJson, GetJobGoto, GetJobAttackMelee, GetJobCastSpell, GetJobTalk, GetJobScriptTalk, GetJobFreeze, GetJobSpawn, GetJobAttackSquad, GetJobCastSpellSquad, GetJobPushBack, GetJobStampede, GetJobFlameThrower, GetJobConstruct, GetJobCrush, GetJobMountBarrierSquad, GetJobMountBarrier, GetJobModeChangeSquad, GetJobModeChange, GetJobSacrificeSquad, GetJobUsePortalSquad, GetJobChannel, GetJobLootTargetSquad, GetJobMorph, GetJobUnknown;
  }

  /** The decoder of case `k` stores a value of case `k` that can be copied. */
  lemma JobDecodeCaseIndex(k: nat, payload: Json)
    requires 1 <= k <= |JobLabels|
    ensures JobDecodeCase(k, payload).Ok? ==>
      JobIndex(JobDecodeCase(k, payload).value) == k && JobEncodable(JobDecodeCase(k, payload).value)
  {
    if k <= 5 {
      JobDecodeCaseIndexPart1(k, payload);
    } else if k <= 11 {
      JobDecodeCaseIndexPart2(k, payload);
    } else if k <= 17 {
      JobDecodeCaseIndexPart3(k, payload);
    } else if k <= 23 {
      JobDecodeCaseIndexPart4(k, payload);
    } else if k <= 29 {
      JobDecodeCaseIndexPart5(k, payload);
    } else {
      JobDecodeCaseIndexPart6(k, payload);
    }
  }

  /** How cases 0 to 5 encode. */
  lemma JobToJsonShapePart1(u: Job)
    requires 0 <= JobIndex(u) <= 5
    ensures JobIndex(u) <= |JobLabels|
    ensures u.Invalid? <==> JobIndex(u) == 0
    ensures JobIndex(u) == 0 ==> JobToJson(u) == Err(InvalidDefaultVariant)
    ensures JobIndex(u) != 0 && JobPayloadToJson(u).Err? ==> JobToJson(u) == Err(JobPayloadToJson(u).error)
    ensures JobIndex(u) != 0 && JobPayloadToJson(u).Ok? ==>
      JobToJson(u) == Ok(Obj([(JobLabels[JobIndex(u) - 1], JobPayloadToJson(u).value)]))
  {
    hide JobGotoToJson, JobAttackMeleeToJson, JobCastSpellToJson, JobTalkToJson, JobScriptTalkToJson, JobFreezeToJson, JobSpawnToJson, JobAttackSquadToJson, JobCastSpellSquadToJson, JobPushBackToJson, JobStampedeToJson, JobFlameThrowerToJson, JobConstructToJson, JobCrushToJson, JobMountBarrierSquadToJson, JobMountBarrierToJson, JobModeChangeSquadToJson, JobModeChangeToJson, JobSacrificeSquadToJson, JobUsePortalSquadToJson, JobChannelToJson, JobLootTargetSquadToJson, JobMorphToJson, JobUnknownToJson;
    match u
    case Invalid =>
    case NoJob =>
    case Idle =>
    case Goto(_) =>
    case AttackMelee(_) =>
    case CastSpell(_) =>
    case _ => assert false;
  }

  /** How cases 6 to 11 encode. */
  lemma JobToJsonShapePart2(u: Job)
    requires 6 <= JobIndex(u) <= 11
    ensures JobIndex(u) <= |JobLabels|
    ensures u.Invalid? <==> JobIndex(u) == 0
    ensures JobIndex(u) == 0 ==> JobToJson(u) == Err(InvalidDefaultVariant)
    ensures JobIndex(u) != 0 && JobPayloadToJson(u).Err? ==> JobToJson(u) == Err(JobPayloadToJson(u).error)
    ensures JobIndex(u) != 0 && JobPayloadToJson(u).Ok? ==>
      JobToJson(u) == Ok(Obj([(JobLabels[JobIndex(u) - 1], JobPayloadToJson(u).value)]))
  {
    hide JobGotoToJson, JobAttackMeleeToJson, JobCastSpellToJson, JobTalkToJson, JobScriptTalkToJson, JobFreezeToJson, JobSpawnToJson, JobAttackSquadToJson, JobCastSpellSquadToJson, JobPushBackToJson, JobStampedeToJson, JobFlameThrowerToJson, JobConstructToJson, JobCrushToJson, JobMountBarrierSquadToJson, JobMountBarrierToJson, JobModeChangeSquadToJson, JobModeChangeToJson, JobSacrificeSquadToJson, JobUsePortalSquadToJson, JobChannelToJson, JobLootTargetSquadToJson, JobMorphToJson, JobUnknownToJson;
    match u
    case Die =>
    case Talk(_) =>
    case ScriptTalk(_) =>
    case Freeze(_) =>
    case Spawn(_) =>
    case Cheer =>
    case _ => assert false;
  }

  /** How cases 12 to 17 encode. */
  lemma JobToJsonShapePart3(u: Job)
    requires 12 <= JobIndex(u) <= 17
    ensures JobIndex(u) <= |JobLabels|
    ensures u.Invalid? <==> JobIndex(u) == 0
    ensures JobIndex(u) == 0 ==> JobToJson(u) == Err(InvalidDefaultVariant)
    ensures JobIndex(u) != 0 && JobPayloadToJson(u).Err? ==> JobToJson(u) == Err(JobPayloadToJson(u).error)
    ensures JobIndex(u) != 0 && JobPayloadToJson(u).Ok? ==>
      JobToJson(u) == Ok(Obj([(JobLabels[JobIndex(u) - 1], JobPayloadToJson(u).value)]))
  {
    hide JobGotoToJson, JobAttackMeleeToJson, JobCastSpellToJson, JobTalkToJson, JobScriptTalkToJson, JobFreezeToJson, JobSpawnToJson, JobAttackSquadToJson, JobCastSpellSquadToJson, JobPushBackToJson, JobStampedeToJson, JobFlameThrowerToJson, JobConstructToJson, JobCrushToJson, JobMountBarrierSquadToJson, JobMountBarrierToJson, JobModeChangeSquadToJson, JobModeChangeToJson, JobSacrificeSquadToJson, JobUsePortalSquadToJson, JobChannelToJson, JobLootTargetSquadToJson, JobMorphToJson, JobUnknownToJson;
    match u
    case AttackSquad(_) =>
    case CastSpellSquad(_) =>
    case PushBack(_) =>
    case Stampede(_) =>
    case BarrierCrush =>
    case BarrierGateToggle =>
    case _ => assert false;
  }

  /** How cases 18 to 23 encode. */
  lemma JobToJsonShapePart4(u: Job)
    requires 18 <= JobIndex(u) <= 23
    ensures JobIndex(u) <= |JobLabels|
    ensures u.Invalid? <==> JobIndex(u) == 0
    ensures JobIndex(u) == 0 ==> JobToJson(u) == Err(InvalidDefaultVariant)
    ensures JobIndex(u) != 0 && JobPayloadToJson(u).Err? ==> JobToJson(u) == Err(JobPayloadToJson(u).error)
    ensures JobIndex(u) != 0 && JobPayloadToJson(u).Ok? ==>
      JobToJson(u) == Ok(Obj([(JobLabels[JobIndex(u) - 1], JobPayloadToJson(u).value)]))
  {
    hide JobGotoToJson, JobAttackMeleeToJson, JobCastSpellToJson, JobTalkToJson, JobScriptTalkToJson, JobFreezeToJson, JobSpawnToJson, JobAttackSquadToJson, JobCastSpellSquadToJson, JobPushBackToJson, JobStampedeToJson, JobFlameThrowerToJson, JobConstructToJson, JobCrushToJson, JobMountBarrierSquadToJson, JobMountBarrierToJson, JobModeChangeSquadToJson, JobModeChangeToJson, JobSacrificeSquadToJson, JobUsePortalSquadToJson, JobChannelToJson, JobLootTargetSquadToJson, JobMorphToJson, JobUnknownToJson;
    match u
    case FlameThrower(_) =>
    case Construct(_) =>
    case Crush(_) =>
    case MountBarrierSquad(_) =>
    case MountBarrier(_) =>
    case ModeChangeSquad(_) =>
    case _ => assert false;
  }

  /** How cases 24 to 29 encode. */
  lemma JobToJsonShapePart5(u: Job)
    requires 24 <= JobIndex(u) <= 29
    ensures JobIndex(u) <= |JobLabels|
    ensures u.Invalid? <==> JobIndex(u) == 0
    ensures JobIndex(u) == 0 ==> JobToJson(u) == Err(InvalidDefaultVariant)
    ensures JobIndex(u) != 0 && JobPayloadToJson(u).Err? ==> JobToJson(u) == Err(JobPayloadToJson(u).error)
    ensures JobIndex(u) != 0 && JobPayloadToJson(u).Ok? ==>
      JobToJson(u) == Ok(Obj([(JobLabels[JobIndex(u) - 1], JobPayloadToJson(u).value)]))
  {
    hide JobGotoToJson, JobAttackMeleeToJson, JobCastSpellToJson, JobTalkToJson, JobScriptTalkToJson, JobFreezeToJson, JobSpawnToJson, JobAttackSquadToJson, JobCastSpellSquadToJson, JobPushBackToJson, JobStampedeToJson, JobFlameThrowerToJson, JobConstructToJson, JobCrushToJson, JobMountBarrierSquadToJson, JobMountBarrierToJson, JobModeChangeSquadToJson, JobModeChangeToJson, JobSacrificeSquadToJson, JobUsePortalSquadToJson, JobChannelToJson, JobLootTargetSquadToJson, JobMorphToJson, JobUnknownToJson;
    match u
    case ModeChange(_) =>
    case SacrificeSquad(_) =>
    case UsePortalSquad(_) =>
    case Channel(_) =>
    case SpawnSquad =>
    case LootTargetSquad(_) =>
    case _ => assert false;
  }

  /** How cases 30 to 31 encode. */
  lemma JobToJsonShapePart6(u: Job)
    requires 30 <= JobIndex(u) <= 31
    ensures JobIndex(u) <= |JobLabels|
    ensures u.Invalid? <==> JobIndex(u) == 0
    ensures JobIndex(u) == 0 ==> JobToJson(u) == Err(InvalidDefaultVariant)
    ensures JobIndex(u) != 0 && JobPayloadToJson(u).Err? ==> JobToJson(u) == Err(JobPayloadToJson(u).error)
    ensures JobIndex(u) != 0 && JobPayloadToJson(u).Ok? ==>
      JobToJson(u) == Ok(Obj([(JobLabels[JobIndex(u) - 1], JobPayloadToJson(u).value)]))
  {
    hide JobGotoToJson, JobAttackMeleeToJson, JobCastSpellToJson, JobTalkToJson, JobScriptTalkToJson, JobFreezeToJson, JobSpawnToJson, JobAttackSquadToJson, JobCastSpellSquadToJson, JobPushBackToJson, JobStampedeToJson, JobFlameThrowerToJson, JobConstructToJson, JobCrushToJson, JobMountBarrierSquadToJson, JobMountBarrierToJson, JobModeChangeSquadToJson, JobModeChangeToJson, JobSacrificeSquadToJson, JobUsePortalSquadToJson, JobChannelToJson, JobLootTargetSquadToJson, JobMorphToJson, JobUnknownToJson;
    match u
    case Morph(_) =>
    case Unknown(_) =>
    case _ => assert false;
  }

  /** A valid case encodes as its label mapped to its payload. */
  lemma JobToJsonShape(u: Job)
    ensures JobIndex(u) <= |JobLabels|
    ensures u.Invalid? <==> JobIndex(u) == 0
    ensures JobIndex(u) == 0 ==> JobToJson(u) == Err(InvalidDefaultVariant)
    ensures JobIndex(u) != 0 && JobPayloadToJson(u).Err? ==> JobToJson(u) == Err(JobPayloadToJson(u).error)
    ensures JobIndex(u) != 0 && JobPayloadToJson(u).Ok? ==>
      JobToJson(u) == Ok(Obj([(JobLabels[JobIndex(u) - 1], JobPayloadToJson(u).value)]))
  {
    hide JobGotoToJson, JobAttackMeleeToJson, JobCastSpellToJson, JobTalkToJson, JobScriptTalkToJson, JobFreezeToJson, JobSpawnToJson, JobAttackSquadToJson, JobCastSpellSquadToJson, JobPushBackToJson, JobStampedeToJson, JobFlameThrowerToJson, JobConstructToJson, JobCrushToJson, JobMountBarrierSquadToJson, JobMountBarrierToJson, JobModeChangeSquadToJson, JobModeChangeToJson, JobSacrificeSquadToJson, JobUsePortalSquadToJson, JobChannelToJson, JobLootTargetSquadToJson, JobMorphToJson, JobUnknownToJson;
    if JobIndex(u) <= 5 {
      JobToJsonShapePart1(u);
    } else if JobIndex(u) <= 11 {
      JobToJsonShapePart2(u);
    } else if JobIndex(u) <= 17 {
      JobToJsonShapePart3(u);
    } else if JobIndex(u) <= 23 {
      JobToJsonShapePart4(u);
    } else if JobIndex(u) <= 29 {
      JobToJsonShapePart5(u);
    } else {
      JobToJsonShapePart6(u);
    }
  }

  /**
   * The C-like `from_json` is the selection every tagged struct performs,
   * and decodes as the `std::variant` form does, except that a selected
   * payload holding a tagged struct that holds `Invalid` fails with
   * "Invalid default variant!" instead of being kept.
   */
  lemma JobFromJsonSelects(j: Json, prior: Job)
    ensures TypesCLike.Decode(JobFamily, j, prior) == TypesCLike.Stored(JobFamily, j, JobFromJson(j, prior))
  {
    JobLabelsAgree();
    hide JobCase, JobEncodable, Select;
  }

  /** The C-like `Job` has everything the tagged struct relies on. */
  lemma JobLawful()
    ensures TypesCLike.Lawful(JobFamily)
  {
    JobLabelsAgree();
    JobLabelsDistinct();
    hide JobToJson, JobPayloadToJson, JobFromJson, JobCase, JobDecodeCase, JobIndex, JobEncodable, Select, Distinct;
    forall u: Job
      ensures JobIndex(u) <= |CJobLabels|
      ensures JobIndex(u) == 0 ==> JobToJson(u) == Err(InvalidDefaultVariant)
      ensures JobIndex(u) != 0 && JobPayloadToJson(u).Err? ==> JobToJson(u) == Err(JobPayloadToJson(u).error)
      ensures JobIndex(u) != 0 && JobPayloadToJson(u).Ok? ==>
        JobToJson(u) == Ok(Obj([(CJobLabels[JobIndex(u) - 1], JobPayloadToJson(u).value)]))
    {
      JobToJsonShape(u);
    }
    forall k: nat, payload | 1 <= k <= |CJobLabels| && JobDecodeCase(k, payload).Ok?
      ensures JobIndex(JobDecodeCase(k, payload).value) == k && JobEncodable(JobDecodeCase(k, payload).value)
    {
      JobDecodeCaseIndex(k, payload);
    }
    forall u: Job | JobToJson(u).Ok?
      ensures JobEncodable(u)
    {
      JobRoundTrip(u, u);
    }
    forall j, prior: Job
      ensures TypesCLike.Decode(JobFamily, j, prior) == TypesCLike.Stored(JobFamily, j, JobFromJson(j, prior))
    {
      JobFromJsonSelects(j, prior);
    }
    forall u, prior: Job | JobToJson(u).Ok?
      ensures JobFromJson(JobToJson(u).value, prior) == Ok(u)
    {
      JobRoundTrip(u, prior);
    }
    JobToJsonShape(Job.Invalid);
  }

  // Command

  /** The labels the C-like `Command` writes, in case order. */
  const CCommandLabels: seq<string> := ["BuildHouse", "CastSpellGod", "CastSpellGodMulti", "ProduceSquad", "ProduceSquadOnBarrier", "CastSpellEntity", "BarrierGateToggle", "BarrierBuild", "BarrierRepair", "BarrierCancelRepair", "RepairBuilding", "CancelRepairBuilding", "GroupAttack", "GroupEnterWall", "GroupExitWall", "GroupGoto", "GroupHoldPosition", "GroupStopJob", "ModeChange", "PowerSlotBuild", "TokenSlotBuild", "GroupKillEntity", "GroupSacrifice", "PortalDefineExitPoint", "PortalRemoveExitPoint", "TunnelMakeExitPoint", "Ping", "Surrender", "WhisperToMaster"]

  /** Case by case, the C-like header uses the labels of the `std::variant` form. */
  lemma CommandLabelsAgree()
    ensures CCommandLabels == CommandLabels
  {
  }

  /**
   * `payload.get<Payload_k>()` stored into the union for case `k`. A payload
   * that holds a tagged struct holding `Invalid` is refused by that
   * struct's `operator=`; any other number names no case.
   */
  function CommandDecodeCase(k: nat, payload: Json): Outcome<Command>
  {
    if 1 <= k <= |CommandLabels| then
      var u :- CommandCase(k, payload);
      if CommandEncodable(u) then Ok(u) else Err(InvalidDefaultVariant)
    else Err(InvalidVariant)
  }

  const CommandFamily: TypesCLike.Family<Command> :=
    TypesCLike.Family(CCommandLabels, CommandIndex, Command.Invalid, CommandEncodable, CommandPayloadToJson, CommandDecodeCase, CommandToJson, CommandFromJson)

  /** The decoder of case `k` stores a value of case `k`, for cases 1 to 5. */
  lemma CommandDecodeCaseIndexPart1(k: nat, payload: Json)
    requires 1 <= k <= 5
    ensures CommandDecodeCase(k, payload).Ok? ==>
      CommandIndex(CommandDecodeCase(k, payload).value) == k && CommandEncodable(CommandDecodeCase(k, payload).value)
  {
    hide CommandBuildHouseFromJson, CommandCastSpellGodFromJson, CommandCastSpellGodMultiFromJson, CommandProduceSquadFromJson, CommandProduceSquadOnBarrierFromJson, CommandCastSpellEntityFromJson, CommandBarrierGateToggleFromJson, CommandBarrierBuildFromJson, CommandBarrierRepairFromJson, CommandBarrierCancelRepairFromJson, CommandRepairBuildingFromJson, CommandCancelRepairBuildingFromJson, CommandGroupAttackFromJson, CommandGroupEnterWallFromJson, CommandGroupExitWallFromJson, CommandGroupGotoFromJson, CommandGroupHoldPositionFromJson, CommandGroupStopJobFromJson, CommandModeChangeFromJson, CommandPowerSlotBuildFromJson, CommandTokenSlotBuildFromJson, CommandGroupKillEntityFromJson, CommandGroupSacrificeFromJson, CommandPortalDefineExitPointFromJson, CommandPortalRemoveExitPointFromJson, CommandTunnelMakeExitPointFromJson, CommandPingFromJson, CommandWhisperToMasterFromJson, GetCommandBuildHouse, GetCommandCastSpellGod, GetCommandCastSpellGodMulti, GetCommandProduceSquad, GetCommandProduceSquadOnBarrier, GetCommandCastSpellEntity, GetCommandBarrierGateToggle, GetCommandBarrierBuild, GetCommandBarrierRepair, GetCommandBarrierCancelRepair, GetCommandRepairBuilding, GetCommandCancelRepairBuilding, GetCommandGroupAttack, GetCommandGroupEnterWall, GetCommandGroupExitWall, GetCommandGroupGoto, GetCommandGroupHoldPosition, GetCommandGroupStopJob, GetCommandModeChange, GetCommandPowerSlotBuild, GetCommandTokenSlotBuild, GetCommandGroupKillEntity, GetCommandGroupSacrifice, GetCommandPortalDefineExitPoint, GetCommandPortalRemoveExitPoint, GetCommandTunnelMakeExitPoint, GetCommandPing, GetCommandWhisperToMaster;
  }

  /** The decoder of case `k` stores a value of case `k`, for cases 6 to 11. */
  lemma CommandDecodeCaseIndexPart2(k: nat, payload: Json)
    requires 6 <= k <= 11
    ensures CommandDecodeCase(k, payload).Ok? ==>
      CommandIndex(CommandDecodeCase(k, payload).value) == k && CommandEncodable(CommandDecodeCase(k, payload).value)
  {
    hide CommandBuildHouseFromJson, CommandCastSpellGodFromJson, CommandCastSpellGodMultiFromJson, CommandProduceSquadFromJson, CommandProduceSquadOnBarrierFromJson, CommandCastSpellEntityFromJson, CommandBarrierGateToggleFromJson, CommandBarrierBuildFromJson, CommandBarrierRepairFromJson, CommandBarrierCancelRepairFromJson, CommandRepairBuildingFromJson, CommandCancelRepairBuildingFromJson, CommandGroupAttackFromJson, CommandGroupEnterWallFromJson, CommandGroupExitWallFromJson, CommandGroupGotoFromJson, CommandGroupHoldPositionFromJson, CommandGroupStopJobFromJson, CommandModeChangeFromJson, CommandPowerSlotBuildFromJson, CommandTokenSlotBuildFromJson, CommandGroupKillEntityFromJson, CommandGroupSacrificeFromJson, CommandPortalDefineExitPointFromJson, CommandPortalRemoveExitPointFromJson, CommandTunnelMakeExitPointFromJson, CommandPingFromJson, CommandWhisperToMasterFromJson, GetCommandBuildHouse, GetCommandCastSpellGod, GetCommandCastSpellGodMulti, GetCommandProduceSquad, GetCommandProduceSquadOnBarrier, GetCommandCastSpellEntity, GetCommandBarrierGateToggle, GetCommandBarrierBuild, GetCommandBarrierRepair, GetCommandBarrierCancelRepair, GetCommandRepairBuilding, GetCommandCancelRepairBuilding, GetCommandGroupAttack, GetCommandGroupEnterWall, GetCommandGroupExitWall, GetCommandGroupGoto, GetCommandGroupHoldPosition, GetCommandGroupStopJob, GetCommandModeChange, GetCommandPowerSlotBuild, GetCommandTokenSlotBuild, GetCommandGroupKillEntity, GetCommandGroupSacrifice, GetCommandPortalDefineExitPoint, GetCommandPortalRemoveExitPoint, GetCommandTunnelMakeExitPoint, GetCommandPing, GetCommandWhisperToMaster;
  }

  /** The decoder of case `k` stores a value of case `k`, for cases 12 to 17. */
  lemma CommandDecodeCaseIndexPart3(k: nat, payload: Json)
    requires 12 <= k <= 17
    ensures CommandDecodeCase(k, payload).Ok? ==>
      CommandIndex(CommandDecodeCase(k, payload).value) == k && CommandEncodable(CommandDecodeCase(k, payload).value)
  {
    hide CommandBuildHouseFromJson, CommandCastSpellGodFromJson, CommandCastSpellGodMultiFromJson, CommandProduceSquadFromJson, CommandProduceSquadOnBarrierFromJson, CommandCastSpellEntityFromJson, CommandBarrierGateToggleFromJson, CommandBarrierBuildFromJson, CommandBarrierRepairFromJson, CommandBarrierCancelRepairFromJson, CommandRepairBuildingFromJson, CommandCancelRepairBuildingFromJson, CommandGroupAttackFromJson, CommandGroupEnterWallFromJson, CommandGroupExitWallFromJson, CommandGroupGotoFromJson, CommandGroupHoldPositionFromJson, CommandGroupStopJobFromJson, CommandModeChangeFromJson, CommandPowerSlotBuildFromJson, CommandTokenSlotBuildFromJson, CommandGroupKillEntityFromJson, CommandGroupSacrificeFromJson, CommandPortalDefineExitPointFromJson, CommandPortalRemoveExitPointFromJson, CommandTunnelMakeExitPointFromJson, CommandPingFromJson, CommandWhisperToMasterFromJson, GetCommandBuildHouse, GetCommandCastSpellGod, GetCommandCastSpellGodMulti, GetCommandProduceSquad, GetCommandProduceSquadOnBarrier, GetCommandCastSpellEntity, GetCommandBarrierGateToggle, GetCommandBarrierBuild, GetCommandBarrierRepair, GetCommandBarrierCancelRepair, GetCommandRepairBuilding, GetCommandCancelRepairBuilding, GetCommandGroupAttack, GetCommandGroupEnterWall, GetCommandGroupExitWall, GetCommandGroupGoto, GetCommandGroupHoldPosition, GetCommandGroupStopJob, GetCommandModeChange, GetCommandPowerSlotBuild, GetCommandTokenSlotBuild, GetCommandGroupKillEntity, GetCommandGroupSacrifice, GetCommandPortalDefineExitPoint, GetCommandPortalRemoveExitPoint, GetCommandTunnelMakeExitPoint, GetCommandPing, GetCommandWhisperToMaster;
  }

  /** The decoder of case `k` stores a value of case `k`, for cases 18 to 23. */
  lemma CommandDecodeCaseIndexPart4(k: nat, payload: Json)
    requires 18 <= k <= 23
    ensures CommandDecodeCase(k, payload).Ok? ==>
      CommandIndex(CommandDecodeCase(k, payload).value) == k && CommandEncodable(CommandDecodeCase(k, payload).value)
  {
    hide CommandBuildHouseFromJson, CommandCastSpellGodFromJson, CommandCastSpellGodMultiFromJson, CommandProduceSquadFromJson, CommandProduceSquadOnBarrierFromJson, CommandCastSpellEntityFromJson, CommandBarrierGateToggleFromJson, CommandBarrierBuildFromJson, CommandBarrierRepairFromJson, CommandBarrierCancelRepairFromJson, CommandRepairBuildingFromJson, CommandCancelRepairBuildingFromJson, CommandGroupAttackFromJson, CommandGroupEnterWallFromJson, CommandGroupExitWallFromJson, CommandGroupGotoFromJson, CommandGroupHoldPositionFromJson, CommandGroupStopJobFromJson, CommandModeChangeFromJson, CommandPowerSlotBuildFromJson, CommandTokenSlotBuildFromJson, CommandGroupKillEntityFromJson, CommandGroupSacrificeFromJson, CommandPortalDefineExitPointFromJson, CommandPortalRemoveExitPointFromJson, CommandTunnelMakeExitPointFromJson, CommandPingFromJson, CommandWhisperToMasterFromJson, GetCommandBuildHouse, GetCommandCastSpellGod, GetCommandCastSpellGodMulti, GetCommandProduceSquad, GetCommandProduceSquadOnBarrier, GetCommandCastSpellEntity, GetCommandBarrierGateToggle, GetCommandBarrierBuild, GetCommandBarrierRepair, GetCommandBarrierCancelRepair, GetCommandRepairBuilding, GetCommandCancelRepairBuilding, GetCommandGroupAttack, GetCommandGroupEnterWall, GetCommandGroupExitWall, GetCommandGroupGoto, GetCommandGroupHoldPosition, GetCommandGroupStopJob, GetCommandModeChange, GetCommandPowerSlotBuild, GetCommandTokenSlotBuild, GetCommandGroupKillEntity, GetCommandGroupSacrifice, GetCommandPortalDefineExitPoint, GetCommandPortalRemoveExitPoint, GetCommandTunnelMakeExitPoint, GetCommandPing, GetCommandWhisperToMaster;
  }

  /** The decoder of case `k` stores a value of case `k`, for cases 24 to 29. */
  lemma CommandDecodeCaseIndexPart5(k: nat, payload: Json)
    requires 24 <= k <= 29
    ensures CommandDecodeCase(k, payload).Ok? ==>
      CommandIndex(CommandDecodeCase(k, payload).value) == k && CommandEncodable(CommandDecodeCase(k, payload).value)
  {
    hide CommandBuildHouseFromJson, CommandCastSpellGodFromJson, CommandCastSpellGodMultiFromJson, CommandProduceSquadFromJson, CommandProduceSquadOnBarrierFromJson, CommandCastSpellEntityFromJson, CommandBarrierGateToggleFromJson, CommandBarrierBuildFromJson, CommandBarrierRepairFromJson, CommandBarrierCancelRepairFromJson, CommandRepairBuildingFromJson, CommandCancelRepairBuildingFromJson, CommandGroupAttackFromJson, CommandGroupEnterWallFromJson, CommandGroupExitWallFromJson, CommandGroupGotoFromJson, CommandGroupHoldPositionFromJson, CommandGroupStopJobFromJson, CommandModeChangeFromJson, CommandPowerSlotBuildFromJson, CommandTokenSlotBuildFromJson, CommandGroupKillEntityFromJson, CommandGroupSacrificeFromJson, CommandPortalDefineExitPointFromJson, CommandPortalRemoveExitPointFromJson, CommandTunnelMakeExitPointFromJson, CommandPingFromJson, CommandWhisperToMasterFromJson, GetCommandBuildHouse, GetCommandCastSpellGod, GetCommandCastSpellGodMulti, GetCommandProduceSquad, GetCommandProduceSquadOnBarrier, GetCommandCastSpellEntity, GetCommandBarrierGateToggle, GetCommandBarrierBuild, GetCommandBarrierRepair, GetCommandBarrierCancelRepair, GetCommandRepairBuilding, GetCommandCancelRepairBuilding, GetCommandGroupAttack, GetCommandGroupEnterWall, GetCommandGroupExitWall, GetCommandGroupGoto, GetCommandGroupHoldPosition, GetCommandGroupStopJob, GetCommandModeChange, GetCommandPowerSlotBuild, GetCommandTokenSlotBuild, GetCommandGroupKillEntity, GetCommandGroupSacrifice, GetCommandPortalDefineExitPoint, GetCommandPortalRemoveExitPoint, GetCommandTunnelMakeExitPoint, GetCommandPing, GetCommandWhisperToMaster;
  }

  /** The decoder of case `k` stores a value of case `k` that can be copied. */
  lemma CommandDecodeCaseIndex(k: nat, payload: Json)
    requires 1 <= k <= |CommandLabels|
    ensures CommandDecodeCase(k, payload).Ok? ==>
      CommandIndex(CommandDecodeCase(k, payload).value) == k && CommandEncodable(CommandDecodeCase(k, payload).value)
  {
    if k <= 5 {
      CommandDecodeCaseIndexPart1(k, payload);
    } else if k <= 11 {
      CommandDecodeCaseIndexPart2(k, payload);
    } else if k <= 17 {
      CommandDecodeCaseIndexPart3(k, payload);
    } else if k <= 23 {
      CommandDecodeCaseIndexPart4(k, payload);
    } else {
      CommandDecodeCaseIndexPart5(k, payload);
    }
  }

  /** How cases 0 to 5 encode. */
  lemma CommandToJsonShapePart1(u: Command)
    requires 0 <= CommandIndex(u) <= 5
    ensures CommandIndex(u) <= |CommandLabels|
    ensures u.Invalid? <==> CommandIndex(u) == 0
    ensures CommandIndex(u) == 0 ==> CommandToJson(u) == Err(InvalidDefaultVariant)
    ensures CommandIndex(u) != 0 && CommandPayloadToJson(u).Err? ==> CommandToJson(u) == Err(CommandPayloadToJson(u).error)
    ensures CommandIndex(u) != 0 && CommandPayloadToJson(u).Ok? ==>
      CommandToJson(u) == Ok(Obj([(CommandLabels[CommandIndex(u) - 1], CommandPayloadToJson(u).value)]))
  {
    hide CommandBuildHouseToJson, CommandCastSpellGodToJson, CommandCastSpellGodMultiToJson, CommandProduceSquadToJson, CommandProduceSquadOnBarrierToJson, CommandCastSpellEntityToJson, CommandBarrierGateToggleToJson, CommandBarrierBuildToJson, CommandBarrierRepairToJson, CommandBarrierCancelRepairToJson, CommandRepairBuildingToJson, CommandCancelRepairBuildingToJson, CommandGroupAttackToJson, CommandGroupEnterWallToJson, CommandGroupExitWallToJson, CommandGroupGotoToJson, CommandGroupHoldPositionToJson, CommandGroupStopJobToJson, CommandModeChangeToJson, CommandPowerSlotBuildToJson, CommandTokenSlotBuildToJson, CommandGroupKillEntityToJson, CommandGroupSacrificeToJson, CommandPortalDefineExitPointToJson, CommandPortalRemoveExitPointToJson, CommandTunnelMakeExitPointToJson, CommandPingToJson, CommandWhisperToMasterToJson;
    match u
    case Invalid =>
    case BuildHouse(_) =>
    case CastSpellGod(_) =>
    case CastSpellGodMulti(_) =>
    case ProduceSquad(_) =>
    case ProduceSquadOnBarrier(_) =>
    case _ => assert false;
  }

  /** How cases 6 to 11 encode. */
  lemma CommandToJsonShapePart2(u: Command)
    requires 6 <= CommandIndex(u) <= 11
    ensures CommandIndex(u) <= |CommandLabels|
    ensures u.Invalid? <==> CommandIndex(u) == 0
    ensures CommandIndex(u) == 0 ==> CommandToJson(u) == Err(InvalidDefaultVariant)
    ensures CommandIndex(u) != 0 && CommandPayloadToJson(u).Err? ==> CommandToJson(u) == Err(CommandPayloadToJson(u).error)
    ensures CommandIndex(u) != 0 && CommandPayloadToJson(u).Ok? ==>
      CommandToJson(u) == Ok(Obj([(CommandLabels[CommandIndex(u) - 1], CommandPayloadToJson(u).value)]))
  {
    hide CommandBuildHouseToJson, CommandCastSpellGodToJson, CommandCastSpellGodMultiToJson, CommandProduceSquadToJson, CommandProduceSquadOnBarrierToJson, CommandCastSpellEntityToJson, CommandBarrierGateToggleToJson, CommandBarrierBuildToJson, CommandBarrierRepairToJson, CommandBarrierCancelRepairToJson, CommandRepairBuildingToJson, CommandCancelRepairBuildingToJson, CommandGroupAttackToJson, CommandGroupEnterWallToJson, CommandGroupExitWallToJson, CommandGroupGotoToJson, CommandGroupHoldPositionToJson, CommandGroupStopJobToJson, CommandModeChangeToJson, CommandPowerSlotBuildToJson, CommandTokenSlotBuildToJson, CommandGroupKillEntityToJson, CommandGroupSacrificeToJson, CommandPortalDefineExitPointToJson, CommandPortalRemoveExitPointToJson, CommandTunnelMakeExitPointToJson, CommandPingToJson, CommandWhisperToMasterToJson;
    match u
    case CastSpellEntity(_) =>
    case BarrierGateToggle(_) =>
    case BarrierBuild(_) =>
    case BarrierRepair(_) =>
    case BarrierCancelRepair(_) =>
    case RepairBuilding(_) =>
    case _ => assert false;
  }

  /** How cases 12 to 17 encode. */
  lemma CommandToJsonShapePart3(u: Command)
    requires 12 <= CommandIndex(u) <= 17
    ensures CommandIndex(u) <= |CommandLabels|
    ensures u.Invalid? <==> CommandIndex(u) == 0
    ensures CommandIndex(u) == 0 ==> CommandToJson(u) == Err(InvalidDefaultVariant)
    ensures CommandIndex(u) != 0 && CommandPayloadToJson(u).Err? ==> CommandToJson(u) == Err(CommandPayloadToJson(u).error)
    ensures CommandIndex(u) != 0 && CommandPayloadToJson(u).Ok? ==>
      CommandToJson(u) == Ok(Obj([(CommandLabels[CommandIndex(u) - 1], CommandPayloadToJson(u).value)]))
  {
    hide CommandBuildHouseToJson, CommandCastSpellGodToJson, CommandCastSpellGodMultiToJson, CommandProduceSquadToJson, CommandProduceSquadOnBarrierToJson, CommandCastSpellEntityToJson, CommandBarrierGateToggleToJson, CommandBarrierBuildToJson, CommandBarrierRepairToJson, CommandBarrierCancelRepairToJson, CommandRepairBuildingToJson, CommandCancelRepairBuildingToJson, CommandGroupAttackToJson, CommandGroupEnterWallToJson, CommandGroupExitWallToJson, CommandGroupGotoToJson, CommandGroupHoldPositionToJson, CommandGroupStopJobToJson, CommandModeChangeToJson, CommandPowerSlotBuildToJson, CommandTokenSlotBuildToJson, CommandGroupKillEntityToJson, CommandGroupSacrificeToJson, CommandPortalDefineExitPointToJson, CommandPortalRemoveExitPointToJson, CommandTunnelMakeExitPointToJson, CommandPingToJson, CommandWhisperToMasterToJson;
    match u
    case CancelRepairBuilding(_) =>
    case GroupAttack(_) =>
    case GroupEnterWall(_) =>
    case GroupExitWall(_) =>
    case GroupGoto(_) =>
    case GroupHoldPosition(_) =>
    case _ => assert false;
  }

  /** How cases 18 to 23 encode. */
  lemma CommandToJsonShapePart4(u: Command)
    requires 18 <= CommandIndex(u) <= 23
    ensures CommandIndex(u) <= |CommandLabels|
    ensures u.Invalid? <==> CommandIndex(u) == 0
    ensures CommandIndex(u) == 0 ==> CommandToJson(u) == Err(InvalidDefaultVariant)
    ensures CommandIndex(u) != 0 && CommandPayloadToJson(u).Err? ==> CommandToJson(u) == Err(CommandPayloadToJson(u).error)
    ensures CommandIndex(u) != 0 && CommandPayloadToJson(u).Ok? ==>
      CommandToJson(u) == Ok(Obj([(CommandLabels[CommandIndex(u) - 1], CommandPayloadToJson(u).value)]))
  {
    hide CommandBuildHouseToJson, CommandCastSpellGodToJson, CommandCastSpellGodMultiToJson, CommandProduceSquadToJson, CommandProduceSquadOnBarrierToJson, CommandCastSpellEntityToJson, CommandBarrierGateToggleToJson, CommandBarrierBuildToJson, CommandBarrierRepairToJson, CommandBarrierCancelRepairToJson, CommandRepairBuildingToJson, CommandCancelRepairBuildingToJson, CommandGroupAttackToJson, CommandGroupEnterWallToJson, CommandGroupExitWallToJson, CommandGroupGotoToJson, CommandGroupHoldPositionToJson, CommandGroupStopJobToJson, CommandModeChangeToJson, CommandPowerSlotBuildToJson, CommandTokenSlotBuildToJson, CommandGroupKillEntityToJson, CommandGroupSacrificeToJson, CommandPortalDefineExitPointToJson, CommandPortalRemoveExitPointToJson, CommandTunnelMakeExitPointToJson, CommandPingToJson, CommandWhisperToMasterToJson;
    match u
    case GroupStopJob(_) =>
    case ModeChange(_) =>
    case PowerSlotBuild(_) =>
    case TokenSlotBuild(_) =>
    case GroupKillEntity(_) =>
    case GroupSacrifice(_) =>
    case _ => assert false;
  }

  /** How cases 24 to 29 encode. */
  lemma CommandToJsonShapePart5(u: Command)
    requires 24 <= CommandIndex(u) <= 29
    ensures CommandIndex(u) <= |CommandLabels|
    ensures u.Invalid? <==> CommandIndex(u) == 0
    ensures CommandIndex(u) == 0 ==> CommandToJson(u) == Err(InvalidDefaultVariant)
    ensures CommandIndex(u) != 0 && CommandPayloadToJson(u).Err? ==> CommandToJson(u) == Err(CommandPayloadToJson(u).error)
    ensures CommandIndex(u) != 0 && CommandPayloadToJson(u).Ok? ==>
      CommandToJson(u) == Ok(Obj([(CommandLabels[CommandIndex(u) - 1], CommandPayloadToJson(u).value)]))
  {
    hide CommandBuildHouseToJson, CommandCastSpellGodToJson, CommandCastSpellGodMultiToJson, CommandProduceSquadToJson, CommandProduceSquadOnBarrierToJson, CommandCastSpellEntityToJson, CommandBarrierGateToggleToJson, CommandBarrierBuildToJson, CommandBarrierRepairToJson, CommandBarrierCancelRepairToJson, CommandRepairBuildingToJson, CommandCancelRepairBuildingToJson, CommandGroupAttackToJson, CommandGroupEnterWallToJson, CommandGroupExitWallToJson, CommandGroupGotoToJson, CommandGroupHoldPositionToJson, CommandGroupStopJobToJson, CommandModeChangeToJson, CommandPowerSlotBuildToJson, CommandTokenSlotBuildToJson, CommandGroupKillEntityToJson, CommandGroupSacrificeToJson, CommandPortalDefineExitPointToJson, CommandPortalRemoveExitPointToJson, CommandTunnelMakeExitPointToJson, CommandPingToJson, CommandWhisperToMasterToJson;
    match u
    case PortalDefineExitPoint(_) =>
    case PortalRemoveExitPoint(_) =>
    case TunnelMakeExitPoint(_) =>
    case Ping(_) =>
    case Surrender =>
    case WhisperToMaster(_) =>
    case _ => assert false;
  }

  /** A valid case encodes as its label mapped to its payload. */
  lemma CommandToJsonShape(u: Command)
    ensures CommandIndex(u) <= |CommandLabels|
    ensures u.Invalid? <==> CommandIndex(u) == 0
    ensures CommandIndex(u) == 0 ==> CommandToJson(u) == Err(InvalidDefaultVariant)
    ensures CommandIndex(u) != 0 && CommandPayloadToJson(u).Err? ==> CommandToJson(u) == Err(CommandPayloadToJson(u).error)
    ensures CommandIndex(u) != 0 && CommandPayloadToJson(u).Ok? ==>
      CommandToJson(u) == Ok(Obj([(CommandLabels[CommandIndex(u) - 1], CommandPayloadToJson(u).value)]))
  {
    hide CommandBuildHouseToJson, CommandCastSpellGodToJson, CommandCastSpellGodMultiToJson, CommandProduceSquadToJson, CommandProduceSquadOnBarrierToJson, CommandCastSpellEntityToJson, CommandBarrierGateToggleToJson, CommandBarrierBuildToJson, CommandBarrierRepairToJson, CommandBarrierCancelRepairToJson, CommandRepairBuildingToJson, CommandCancelRepairBuildingToJson, CommandGroupAttackToJson, CommandGroupEnterWallToJson, CommandGroupExitWallToJson, CommandGroupGotoToJson, CommandGroupHoldPositionToJson, CommandGroupStopJobToJson, CommandModeChangeToJson, CommandPowerSlotBuildToJson, CommandTokenSlotBuildToJson, CommandGroupKillEntityToJson, CommandGroupSacrificeToJson, CommandPortalDefineExitPointToJson, CommandPortalRemoveExitPointToJson, CommandTunnelMakeExitPointToJson, CommandPingToJson, CommandWhisperToMasterToJson;
    if CommandIndex(u) <= 5 {
      CommandToJsonShapePart1(u);
    } else if CommandIndex(u) <= 11 {
      CommandToJsonShapePart2(u);
    } else if CommandIndex(u) <= 17 {
      CommandToJsonShapePart3(u);
    } else if CommandIndex(u) <= 23 {
      CommandToJsonShapePart4(u);
    } else {
      CommandToJsonShapePart5(u);
    }
  }

  /**
   * The C-like `from_json` is the selection every tagged struct performs,
   * and decodes as the `std::variant` form does, except that a selected
   * payload holding a tagged struct that holds `Invalid` fails with
   * "Invalid default variant!" instead of being kept.
   */
  lemma CommandFromJsonSelects(j: Json, prior: Command)
    ensures TypesCLike.Decode(CommandFamily, j, prior) == TypesCLike.Stored(CommandFamily, j, CommandFromJson(j, prior))
  {
    CommandLabelsAgree();
    hide CommandCase, CommandEncodable, Select;
  }

  /** The C-like `Command` has everything the tagged struct relies on. */
  lemma CommandLawful()
    ensures TypesCLike.Lawful(CommandFamily)
  {
    CommandLabelsAgree();
    CommandLabelsDistinct();
    hide CommandToJson, CommandPayloadToJson, CommandFromJson, CommandCase, CommandDecodeCase, CommandIndex, CommandEncodable, Select, Distinct;
    forall u: Command
      ensures CommandIndex(u) <= |CCommandLabels|
      ensures CommandIndex(u) == 0 ==> CommandToJson(u) == Err(InvalidDefaultVariant)
      ensures CommandIndex(u) != 0 && CommandPayloadToJson(u).Err? ==> CommandToJson(u) == Err(CommandPayloadToJson(u).error)
      ensures CommandIndex(u) != 0 && CommandPayloadToJson(u).Ok? ==>
        CommandToJson(u) == Ok(Obj([(CCommandLabels[CommandIndex(u) - 1], CommandPayloadToJson(u).value)]))
    {
      CommandToJsonShape(u);
    }
    forall k: nat, payload | 1 <= k <= |CCommandLabels| && CommandDecodeCase(k, payload).Ok?
      ensures CommandIndex(CommandDecodeCase(k, payload).value) == k && CommandEncodable(CommandDecodeCase(k, payload).value)
    {
      CommandDecodeCaseIndex(k, payload);
    }
    forall u: Command | CommandToJson(u).Ok?
      ensures CommandEncodable(u)
    {
      CommandRoundTrip(u, u);
    }
    forall j, prior: Command
      ensures TypesCLike.Decode(CommandFamily, j, prior) == TypesCLike.Stored(CommandFamily, j, CommandFromJson(j, prior))
    {
      CommandFromJsonSelects(j, prior);
    }
    forall u, prior: Command | CommandToJson(u).Ok?
      ensures CommandFromJson(CommandToJson(u).value, prior) == Ok(u)
    {
      CommandRoundTrip(u, prior);
    }
    CommandToJsonShape(Command.Invalid);
  }

  // CommandRejectionReason

  /** The labels the C-like `CommandRejectionReason` writes, in case order. */
  const CCommandRejectionReasonLabels: seq<string> := ["CardRejected", "NotEnoughPower", "SpellDoesNotExist", "EntityDoesNotExist", "InvalidEntityType", "CanNotCast", "EntityNotOwned", "EntityOwnedBySomeoneElse", "NoModeChange", "EntityAlreadyInThisMode", "ModeNotExist", "InvalidCardIndex", "InvalidCard"]

  /** Case by case, the C-like header uses the labels of the `std::variant` form. */
  lemma CommandRejectionReasonLabelsAgree()
    ensures CCommandRejectionReasonLabels == CommandRejectionReasonLabels
  {
  }

  /**
   * `payload.get<Payload_k>()` for case `k`; no payload of this family holds
   * a tagged struct, so storing it cannot fail. Any other number names no
   * case.
   */
  function CommandRejectionReasonDecodeCase(k: nat, payload: Json): Outcome<CommandRejectionReason>
  {
    if 1 <= k <= |CommandRejectionReasonLabels| then CommandRejectionReasonCase(k, payload) else Err(InvalidVariant)
  }

  const CommandRejectionReasonFamily: TypesCLike.Family<CommandRejectionReason> :=
    TypesCLike.Family(CCommandRejectionReasonLabels, CommandRejectionReasonIndex, CommandRejectionReason.Invalid, CommandRejectionReasonEncodable, CommandRejectionReasonPayloadToJson, CommandRejectionReasonDecodeCase, CommandRejectionReasonToJson, CommandRejectionReasonFromJson)

  /** The decoder of case `k` stores a value of case `k`, for cases 1 to 5. */
  lemma CommandRejectionReasonDecodeCaseIndexPart1(k: nat, payload: Json)
    requires 1 <= k <= 5
    ensures CommandRejectionReasonDecodeCase(k, payload).Ok? ==>
      CommandRejectionReasonIndex(CommandRejectionReasonDecodeCase(k, payload).value) == k && CommandRejectionReasonEncodable(CommandRejectionReasonDecodeCase(k, payload).value)
  {
    hide CommandRejectionReasonCardRejectedFromJson, CommandRejectionReasonNotEnoughPowerFromJson, CommandRejectionReasonInvalidEntityTypeFromJson, CommandRejectionReasonCanNotCastFromJson, GetCommandRejectionReasonCardRejected, GetCommandRejectionReasonNotEnoughPower, GetCommandRejectionReasonInvalidEntityType, GetCommandRejectionReasonCanNotCast;
  }

  /** The decoder of case `k` stores a value of case `k`, for cases 6 to 11. */
  lemma CommandRejectionReasonDecodeCaseIndexPart2(k: nat, payload: Json)
    requires 6 <= k <= 11
    ensures CommandRejectionReasonDecodeCase(k, payload).Ok? ==>
      CommandRejectionReasonIndex(CommandRejectionReasonDecodeCase(k, payload).value) == k && CommandRejectionReasonEncodable(CommandRejectionReasonDecodeCase(k, payload).value)
  {
    hide CommandRejectionReasonCardRejectedFromJson, CommandRejectionReasonNotEnoughPowerFromJson, CommandRejectionReasonInvalidEntityTypeFromJson, CommandRejectionReasonCanNotCastFromJson, GetCommandRejectionReasonCardRejected, GetCommandRejectionReasonNotEnoughPower, GetCommandRejectionReasonInvalidEntityType, GetCommandRejectionReasonCanNotCast;
  }

  /** The decoder of case `k` stores a value of case `k`, for cases 12 to 13. */
  lemma CommandRejectionReasonDecodeCaseIndexPart3(k: nat, payload: Json)
    requires 12 <= k <= 13
    ensures CommandRejectionReasonDecodeCase(k, payload).Ok? ==>
      CommandRejectionReasonIndex(CommandRejectionReasonDecodeCase(k, payload).value) == k && CommandRejectionReasonEncodable(CommandRejectionReasonDecodeCase(k, payload).value)
  {
    hide CommandRejectionReasonCardRejectedFromJson, CommandRejectionReasonNotEnoughPowerFromJson, CommandRejectionReasonInvalidEntityTypeFromJson, CommandRejectionReasonCanNotCastFromJson, GetCommandRejectionReasonCardRejected, GetCommandRejectionReasonNotEnoughPower, GetCommandRejectionReasonInvalidEntityType, GetCommandRejectionReasonCanNotCast;
  }

  /** The decoder of case `k` stores a value of case `k` that can be copied. */
  lemma CommandRejectionReasonDecodeCaseIndex(k: nat, payload: Json)
    requires 1 <= k <= |CommandRejectionReasonLabels|
    ensures CommandRejectionReasonDecodeCase(k, payload).Ok? ==>
      CommandRejectionReasonIndex(CommandRejectionReasonDecodeCase(k, payload).value) == k && CommandRejectionReasonEncodable(CommandRejectionReasonDecodeCase(k, payload).value)
  {
    if k <= 5 {
      CommandRejectionReasonDecodeCaseIndexPart1(k, payload);
    } else if k <= 11 {
      CommandRejectionReasonDecodeCaseIndexPart2(k, payload);
    } else {
      CommandRejectionReasonDecodeCaseIndexPart3(k, payload);
    }
  }

  /** How cases 0 to 5 encode. */
  lemma CommandRejectionReasonToJsonShapePart1(u: CommandRejectionReason)
    requires 0 <= CommandRejectionReasonIndex(u) <= 5
    ensures CommandRejectionReasonIndex(u) <= |CommandRejectionReasonLabels|
    ensures u.Invalid? <==> CommandRejectionReasonIndex(u) == 0
    ensures CommandRejectionReasonIndex(u) == 0 ==> CommandRejectionReasonToJson(u) == Err(InvalidDefaultVariant)
    ensures CommandRejectionReasonIndex(u) != 0 && CommandRejectionReasonPayloadToJson(u).Err? ==> CommandRejectionReasonToJson(u) == Err(CommandRejectionReasonPayloadToJson(u).error)
    ensures CommandRejectionReasonIndex(u) != 0 && CommandRejectionReasonPayloadToJson(u).Ok? ==>
      CommandRejectionReasonToJson(u) == Ok(Obj([(CommandRejectionReasonLabels[CommandRejectionReasonIndex(u) - 1], CommandRejectionReasonPayloadToJson(u).value)]))
  {
    hide CommandRejectionReasonCardRejectedToJson, CommandRejectionReasonNotEnoughPowerToJson, CommandRejectionReasonInvalidEntityTypeToJson, CommandRejectionReasonCanNotCastToJson;
    match u
    case Invalid =>
    case CardRejected(_) =>
    case NotEnoughPower(_) =>
    case SpellDoesNotExist =>
    case EntityDoesNotExist =>
    case InvalidEntityType(_) =>
    case _ => assert false;
  }

  /** How cases 6 to 11 encode. */
  lemma CommandRejectionReasonToJsonShapePart2(u: CommandRejectionReason)
    requires 6 <= CommandRejectionReasonIndex(u) <= 11
    ensures CommandRejectionReasonIndex(u) <= |CommandRejectionReasonLabels|
    ensures u.Invalid? <==> CommandRejectionReasonIndex(u) == 0
    ensures CommandRejectionReasonIndex(u) == 0 ==> CommandRejectionReasonToJson(u) == Err(InvalidDefaultVariant)
    ensures CommandRejectionReasonIndex(u) != 0 && CommandRejectionReasonPayloadToJson(u).Err? ==> CommandRejectionReasonToJson(u) == Err(CommandRejectionReasonPayloadToJson(u).error)
    ensures CommandRejectionReasonIndex(u) != 0 && CommandRejectionReasonPayloadToJson(u).Ok? ==>
      CommandRejectionReasonToJson(u) == Ok(Obj([(CommandRejectionReasonLabels[CommandRejectionReasonIndex(u) - 1], CommandRejectionReasonPayloadToJson(u).value)]))
  {
    hide CommandRejectionReasonCardRejectedToJson, CommandRejectionReasonNotEnoughPowerToJson, CommandRejectionReasonInvalidEntityTypeToJson, CommandRejectionReasonCanNotCastToJson;
    match u
    case CanNotCast(_) =>
    case EntityNotOwned =>
    case EntityOwnedBySomeoneElse =>
    case NoModeChange =>
    case EntityAlreadyInThisMode =>
    case ModeNotExist =>
    case _ => assert false;
  }

  /** How cases 12 to 13 encode. */
  lemma CommandRejectionReasonToJsonShapePart3(u: CommandRejectionReason)
    requires 12 <= CommandRejectionReasonIndex(u) <= 13
    ensures CommandRejectionReasonIndex(u) <= |CommandRejectionReasonLabels|
    ensures u.Invalid? <==> CommandRejectionReasonIndex(u) == 0
    ensures CommandRejectionReasonIndex(u) == 0 ==> CommandRejectionReasonToJson(u) == Err(InvalidDefaultVariant)
    ensures CommandRejectionReasonIndex(u) != 0 && CommandRejectionReasonPayloadToJson(u).Err? ==> CommandRejectionReasonToJson(u) == Err(CommandRejectionReasonPayloadToJson(u).error)
    ensures CommandRejectionReasonIndex(u) != 0 && CommandRejectionReasonPayloadToJson(u).Ok? ==>
      CommandRejectionReasonToJson(u) == Ok(Obj([(CommandRejectionReasonLabels[CommandRejectionReasonIndex(u) - 1], CommandRejectionReasonPayloadToJson(u).value)]))
  {
    hide CommandRejectionReasonCardRejectedToJson, CommandRejectionReasonNotEnoughPowerToJson, CommandRejectionReasonInvalidEntityTypeToJson, CommandRejectionReasonCanNotCastToJson;
    match u
    case InvalidCardIndex =>
    case InvalidCard =>
    case _ => assert false;
  }

  /** A valid case encodes as its label mapped to its payload. */
  lemma CommandRejectionReasonToJsonShape(u: CommandRejectionReason)
    ensures CommandRejectionReasonIndex(u) <= |CommandRejectionReasonLabels|
    ensures u.Invalid? <==> CommandRejectionReasonIndex(u) == 0
    ensures CommandRejectionReasonIndex(u) == 0 ==> CommandRejectionReasonToJson(u) == Err(InvalidDefaultVariant)
    ensures CommandRejectionReasonIndex(u) != 0 && CommandRejectionReasonPayloadToJson(u).Err? ==> CommandRejectionReasonToJson(u) == Err(CommandRejectionReasonPayloadToJson(u).error)
    ensures CommandRejectionReasonIndex(u) != 0 && CommandRejectionReasonPayloadToJson(u).Ok? ==>
      CommandRejectionReasonToJson(u) == Ok(Obj([(CommandRejectionReasonLabels[CommandRejectionReasonIndex(u) - 1], CommandRejectionReasonPayloadToJson(u).value)]))
  {
    hide CommandRejectionReasonCardRejectedToJson, CommandRejectionReasonNotEnoughPowerToJson, CommandRejectionReasonInvalidEntityTypeToJson, CommandRejectionReasonCanNotCastToJson;
    if CommandRejectionReasonIndex(u) <= 5 {
      CommandRejectionReasonToJsonShapePart1(u);
    } else if CommandRejectionReasonIndex(u) <= 11 {
      CommandRejectionReasonToJsonShapePart2(u);
    } else {
      CommandRejectionReasonToJsonShapePart3(u);
    }
  }

  /**
   * The `std::variant` decoder is the selection every tagged struct
   * performs, and what it selects can always be stored.
   */
  lemma CommandRejectionReasonFromJsonSelects(j: Json, prior: CommandRejectionReason)
    ensures CommandRejectionReasonFromJson(j, prior) == TypesCLike.Decode(CommandRejectionReasonFamily, j, prior)
    ensures TypesCLike.Decode(CommandRejectionReasonFamily, j, prior) == TypesCLike.Stored(CommandRejectionReasonFamily, j, CommandRejectionReasonFromJson(j, prior))
  {
    CommandRejectionReasonLabelsAgree();
    hide CommandRejectionReasonCase, CommandRejectionReasonEncodable, Select;
    match Select(CommandRejectionReasonLabels, j)
    case Selected(k, payload) =>
      CommandRejectionReasonDecodeCaseIndex(k, payload);
    case _ =>
  }

  /** The C-like `CommandRejectionReason` has everything the tagged struct relies on. */
  lemma CommandRejectionReasonLawful()
    ensures TypesCLike.Lawful(CommandRejectionReasonFamily)
  {
    CommandRejectionReasonLabelsAgree();
    CommandRejectionReasonLabelsDistinct();
    hide CommandRejectionReasonToJson, CommandRejectionReasonPayloadToJson, CommandRejectionReasonFromJson, CommandRejectionReasonCase, CommandRejectionReasonDecodeCase, CommandRejectionReasonIndex, CommandRejectionReasonEncodable, Select, Distinct;
    forall u: CommandRejectionReason
      ensures CommandRejectionReasonIndex(u) <= |CCommandRejectionReasonLabels|
      ensures CommandRejectionReasonIndex(u) == 0 ==> CommandRejectionReasonToJson(u) == Err(InvalidDefaultVariant)
      ensures CommandRejectionReasonIndex(u) != 0 && CommandRejectionReasonPayloadToJson(u).Err? ==> CommandRejectionReasonToJson(u) == Err(CommandRejectionReasonPayloadToJson(u).error)
      ensures CommandRejectionReasonIndex(u) != 0 && CommandRejectionReasonPayloadToJson(u).Ok? ==>
        CommandRejectionReasonToJson(u) == Ok(Obj([(CCommandRejectionReasonLabels[CommandRejectionReasonIndex(u) - 1], CommandRejectionReasonPayloadToJson(u).value)]))
    {
      CommandRejectionReasonToJsonShape(u);
    }
    forall k: nat, payload | 1 <= k <= |CCommandRejectionReasonLabels| && CommandRejectionReasonDecodeCase(k, payload).Ok?
      ensures CommandRejectionReasonIndex(CommandRejectionReasonDecodeCase(k, payload).value) == k && CommandRejectionReasonEncodable(CommandRejectionReasonDecodeCase(k, payload).value)
    {
      CommandRejectionReasonDecodeCaseIndex(k, payload);
    }
    forall u: CommandRejectionReason | CommandRejectionReasonToJson(u).Ok?
      ensures CommandRejectionReasonEncodable(u)
    {
      CommandRejectionReasonRoundTrip(u, u);
    }
    forall j, prior: CommandRejectionReason
      ensures TypesCLike.Decode(CommandRejectionReasonFamily, j, prior) == TypesCLike.Stored(CommandRejectionReasonFamily, j, CommandRejectionReasonFromJson(j, prior))
    {
      CommandRejectionReasonFromJsonSelects(j, prior);
    }
    forall u, prior: CommandRejectionReason | CommandRejectionReasonToJson(u).Ok?
      ensures CommandRejectionReasonFromJson(CommandRejectionReasonToJson(u).value, prior) == Ok(u)
    {
      CommandRejectionReasonRoundTrip(u, prior);
    }
    CommandRejectionReasonToJsonShape(CommandRejectionReason.Invalid);
  }

  // Payloads that hold a tagged struct

  /** An object whose only key is the label of no case in any family. */
  function UnknownCase(): (j: Json)
    ensures j.Obj? && |j.members| == 1
  {
    Obj([("NoSuchCase", Obj([]))])
  }

  /** A single target whose inner target has an unknown key. */
  function TargetNestedUnknownPayload(): Json
  {
    Obj([("single", UnknownCase())])
  }

  /** As a `TargetSingle`, that payload keeps the inner struct `Invalid`. */
  lemma TargetNestedUnknownDecodes()
    ensures GetTargetSingle(TargetNestedUnknownPayload()) == Ok(TargetSingle(SingleTarget.Invalid))
  {
    assert Select(SingleTargetLabels, UnknownCase()) == Unlabelled;
  }

  /** That payload decodes as `Single` with the inner struct left `Invalid`, which cannot be copied. */
  lemma TargetNestedUnknownCase()
    ensures TargetCase(TargetIndex(Target.Single(DefaultTargetSingle)), TargetNestedUnknownPayload()) == Ok(Target.Single(TargetSingle(SingleTarget.Invalid)))
    ensures !TargetEncodable(Target.Single(TargetSingle(SingleTarget.Invalid)))
  {
    TargetNestedUnknownDecodes();
    hide TargetMultiFromJson, GetTargetMulti, TargetSingleFromJson, GetTargetSingle, TargetNestedUnknownPayload;
  }

  /** That payload under "Single" selects the `Single` case. */
  lemma TargetNestedUnknownSelects()
    ensures Select(TargetLabels, Obj([("Single", TargetNestedUnknownPayload())])) == Selected(TargetIndex(Target.Single(DefaultTargetSingle)), TargetNestedUnknownPayload())
  {
    var k := TargetIndex(Target.Single(DefaultTargetSingle));
    assert TargetLabels[k - 1] == "Single";
    TargetLabelsDistinct();
    SelectEncoded(TargetLabels, k, TargetNestedUnknownPayload());
  }

  /**
   * A single target whose inner target has an unknown key: the `std::variant` form
   * keeps the inner struct `Invalid`, while the C-like `Target` refuses to
   * store it.
   */
  lemma TargetRefusesNestedInvalid(prior: Target)
    ensures TargetFromJson(Obj([("Single", TargetNestedUnknownPayload())]), prior) == Ok(Target.Single(TargetSingle(SingleTarget.Invalid)))
    ensures TypesCLike.Decode(TargetFamily, Obj([("Single", TargetNestedUnknownPayload())]), prior) == Err(InvalidDefaultVariant)
  {
    TargetNestedUnknownSelects();
    TargetNestedUnknownCase();
    hide TargetNestedUnknownPayload, Select, TargetCase, TargetEncodable, TargetIndex;
    TargetFromJsonSelects(Obj([("Single", TargetNestedUnknownPayload())]), prior);
  }

  /** A damage area whose shape has an unknown key. */
  function AbilityEffectSpecificNestedUnknownPayload(): Json
  {
    Obj([("damage_remaining", Float(0.0)), ("progress_current", Float(0.0)), ("progress_delta", Float(0.0)), ("shape", UnknownCase())])
  }

  /** As a `AbilityEffectSpecificDamageArea`, that payload keeps the inner struct `Invalid`. */
  lemma AbilityEffectSpecificNestedUnknownDecodes()
    ensures GetAbilityEffectSpecificDamageArea(AbilityEffectSpecificNestedUnknownPayload()) == Ok(AbilityEffectSpecificDamageArea(0.0, 0.0, 0.0, AreaShape.Invalid))
  {
    assert Select(AreaShapeLabels, UnknownCase()) == Unlabelled;
  }

  /** That payload decodes as `DamageArea` with the inner struct left `Invalid`, which cannot be copied. */
  lemma AbilityEffectSpecificNestedUnknownCase()
    ensures AbilityEffectSpecificCase(AbilityEffectSpecificIndex(AbilityEffectSpecific.DamageArea(DefaultAbilityEffectSpecificDamageArea)), AbilityEffectSpecificNestedUnknownPayload()) == Ok(AbilityEffectSpecific.DamageArea(AbilityEffectSpecificDamageArea(0.0, 0.0, 0.0, AreaShape.Invalid)))
    ensures !AbilityEffectSpecificEncodable(AbilityEffectSpecific.DamageArea(AbilityEffectSpecificDamageArea(0.0, 0.0, 0.0, AreaShape.Invalid)))
  {
    AbilityEffectSpecificNestedUnknownDecodes();
    hide AbilityEffectSpecificDamageOverTimeFromJson, AbilityEffectSpecificLinkedFireFromJson, AbilityEffectSpecificSpellOnEntityNearbyFromJson, AbilityEffectSpecificTimedSpellFromJson, AbilityEffectSpecificCollectorFromJson, AbilityEffectSpecificAuraFromJson, AbilityEffectSpecificMovingIntervalCastFromJson, GetAbilityEffectSpecificDamageOverTime, GetAbilityEffectSpecificLinkedFire, GetAbilityEffectSpecificSpellOnEntityNearby, GetAbilityEffectSpecificTimedSpell, GetAbilityEffectSpecificCollector, GetAbilityEffectSpecificAura, GetAbilityEffectSpecificMovingIntervalCast, AbilityEffectSpecificDamageAreaFromJson, GetAbilityEffectSpecificDamageArea, AbilityEffectSpecificNestedUnknownPayload;
  }

  /** That payload under "DamageArea" selects the `DamageArea` case. */
  lemma AbilityEffectSpecificNestedUnknownSelects()
    ensures Select(AbilityEffectSpecificLabels, Obj([("DamageArea", AbilityEffectSpecificNestedUnknownPayload())])) == Selected(AbilityEffectSpecificIndex(AbilityEffectSpecific.DamageArea(DefaultAbilityEffectSpecificDamageArea)), AbilityEffectSpecificNestedUnknownPayload())
  {
    var k := AbilityEffectSpecificIndex(AbilityEffectSpecific.DamageArea(DefaultAbilityEffectSpecificDamageArea));
    assert AbilityEffectSpecificLabels[k - 1] == "DamageArea";
    AbilityEffectSpecificLabelsDistinct();
    SelectEncoded(AbilityEffectSpecificLabels, k, AbilityEffectSpecificNestedUnknownPayload());
  }

  /**
   * A damage area whose shape has an unknown key: the `std::variant` form
   * keeps the inner struct `Invalid`, while the C-like `AbilityEffectSpecific` refuses to
   * store it.
   */
  lemma AbilityEffectSpecificRefusesNestedInvalid(prior: AbilityEffectSpecific)
    ensures AbilityEffectSpecificFromJson(Obj([("DamageArea", AbilityEffectSpecificNestedUnknownPayload())]), prior) == Ok(AbilityEffectSpecific.DamageArea(AbilityEffectSpecificDamageArea(0.0, 0.0, 0.0, AreaShape.Invalid)))
    ensures TypesCLike.Decode(AbilityEffectSpecificFamily, Obj([("DamageArea", AbilityEffectSpecificNestedUnknownPayload())]), prior) == Err(InvalidDefaultVariant)
  {
    AbilityEffectSpecificNestedUnknownSelects();
    AbilityEffectSpecificNestedUnknownCase();
    hide AbilityEffectSpecificNestedUnknownPayload, Select, AbilityEffectSpecificCase, AbilityEffectSpecificEncodable, AbilityEffectSpecificIndex;
    AbilityEffectSpecificFromJsonSelects(Obj([("DamageArea", AbilityEffectSpecificNestedUnknownPayload())]), prior);
  }

  /** A mount barrier whose state has an unknown key. */
  function AspectNestedUnknownPayload(): Json
  {
    Obj([("state", UnknownCase())])
  }

  /** As a `AspectMountBarrier`, that payload keeps the inner struct `Invalid`. */
  lemma AspectNestedUnknownDecodes()
    ensures GetAspectMountBarrier(AspectNestedUnknownPayload()) == Ok(AspectMountBarrier(MountState.Invalid))
  {
    assert Select(MountStateLabels, UnknownCase()) == Unlabelled;
  }

  /** That payload decodes as `MountBarrier` with the inner struct left `Invalid`, which cannot be copied. */
  lemma AspectNestedUnknownCase()
    ensures AspectCase(AspectIndex(Aspect.MountBarrier(DefaultAspectMountBarrier)), AspectNestedUnknownPayload()) == Ok(Aspect.MountBarrier(AspectMountBarrier(MountState.Invalid)))
    ensures !AspectEncodable(Aspect.MountBarrier(AspectMountBarrier(MountState.Invalid)))
  {
    AspectNestedUnknownDecodes();
    hide AspectPowerProductionFromJson, AspectHealthFromJson, AspectModeChangeFromJson, AspectBarrierGateFromJson, AspectConstructionDataFromJson, GetAspectPowerProduction, GetAspectHealth, GetAspectModeChange, GetAspectBarrierGate, GetAspectConstructionData, AspectMountBarrierFromJson, GetAspectMountBarrier, AspectNestedUnknownPayload;
  }

  /** That payload under "MountBarrier" selects the `MountBarrier` case. */
  lemma AspectNestedUnknownSelects()
    ensures Select(AspectLabels, Obj([("MountBarrier", AspectNestedUnknownPayload())])) == Selected(AspectIndex(Aspect.MountBarrier(DefaultAspectMountBarrier)), AspectNestedUnknownPayload())
  {
    var k := AspectIndex(Aspect.MountBarrier(DefaultAspectMountBarrier));
    assert AspectLabels[k - 1] == "MountBarrier";
    AspectLabelsDistinct();
    SelectEncoded(AspectLabels, k, AspectNestedUnknownPayload());
  }

  /**
   * A mount barrier whose state has an unknown key: the `std::variant` form
   * keeps the inner struct `Invalid`, while the C-like `Aspect` refuses to
   * store it.
   */
  lemma AspectRefusesNestedInvalid(prior: Aspect)
    ensures AspectFromJson(Obj([("MountBarrier", AspectNestedUnknownPayload())]), prior) == Ok(Aspect.MountBarrier(AspectMountBarrier(MountState.Invalid)))
    ensures TypesCLike.Decode(AspectFamily, Obj([("MountBarrier", AspectNestedUnknownPayload())]), prior) == Err(InvalidDefaultVariant)
  {
    AspectNestedUnknownSelects();
    AspectNestedUnknownCase();
    hide AspectNestedUnknownPayload, Select, AspectCase, AspectEncodable, AspectIndex;
    AspectFromJsonSelects(Obj([("MountBarrier", AspectNestedUnknownPayload())]), prior);
  }

  /** A morph job whose target has an unknown key. */
  function JobNestedUnknownPayload(): Json
  {
    Obj([("spell", Int(7)), ("target", UnknownCase())])
  }

  /** As a `JobMorph`, that payload keeps the inner struct `Invalid`. */
  lemma JobNestedUnknownDecodes()
    ensures GetJobMorph(JobNestedUnknownPayload()) == Ok(JobMorph(Target.Invalid, 7))
  {
    assert Select(TargetLabels, UnknownCase()) == Unlabelled;
  }

  /** That payload decodes as `Morph` with the inner struct left `Invalid`, which cannot be copied. */
  lemma JobNestedUnknownCase()
    ensures JobCase(JobIndex(Job.Morph(DefaultJobMorph)), JobNestedUnknownPayload()) == Ok(Job.Morph(JobMorph(Target.Invalid, 7)))
    ensures !JobEncodable(Job.Morph(JobMorph(Target.Invalid, 7)))
  {
    JobNestedUnknownDecodes();
    hide JobGotoFromJson, JobAttackMeleeFromJson, JobCastSpellFromJson, JobTalkFromJson, JobScriptTalkFromJson, JobFreezeFromJson, JobSpawnFromJson, JobAttackSquadFromJson, JobCastSpellSquadFromJson, JobPushBackFromJson, JobStampedeFromJson, JobFlameThrowerFromJson, JobConstructFromJson, JobCrushFromJson, JobMountBarrierSquadFromJson, JobMountBarrierFromJson, JobModeChangeSquadFromJson, JobModeChangeFromJson, JobSacrificeSquadFromJson, JobUsePortalSquadFromJson, JobChannelFromJson, JobLootTargetSquadFromJson, JobUnknownFromJson, GetJobGoto, GetJobAttackMelee, GetJobCastSpell, GetJobTalk, GetJobScriptTalk, GetJobFreeze, GetJobSpawn, GetJobAttackSquad, GetJobCastSpellSquad, GetJobPushBack, GetJobStampede, GetJobFlameThrower, GetJobConstruct, GetJobCrush, GetJobMountBarrierSquad, GetJobMountBarrier, GetJobModeChangeSquad, GetJobModeChange, GetJobSacrificeSquad, GetJobUsePortalSquad, GetJobChannel, GetJobLootTargetSquad, GetJobUnknown, JobMorphFromJson, GetJobMorph, JobNestedUnknownPayload;
  }

  /** That payload under "Morph" selects the `Morph` case. */
  lemma JobNestedUnknownSelects()
    ensures Select(JobLabels, Obj([("Morph", JobNestedUnknownPayload())])) == Selected(JobIndex(Job.Morph(DefaultJobMorph)), JobNestedUnknownPayload())
  {
    var k := JobIndex(Job.Morph(DefaultJobMorph));
    assert JobLabels[k - 1] == "Morph";
    JobLabelsDistinct();
    SelectEncoded(JobLabels, k, JobNestedUnknownPayload());
  }

  /**
   * A morph job whose target has an unknown key: the `std::variant` form
   * keeps the inner struct `Invalid`, while the C-like `Job` refuses to
   * store it.
   */
  lemma JobRefusesNestedInvalid(prior: Job)
    ensures JobFromJson(Obj([("Morph", JobNestedUnknownPayload())]), prior) == Ok(Job.Morph(JobMorph(Target.Invalid, 7)))
    ensures TypesCLike.Decode(JobFamily, Obj([("Morph", JobNestedUnknownPayload())]), prior) == Err(InvalidDefaultVariant)
  {
    JobNestedUnknownSelects();
    JobNestedUnknownCase();
    hide JobNestedUnknownPayload, Select, JobCase, JobEncodable, JobIndex;
    JobFromJsonSelects(Obj([("Morph", JobNestedUnknownPayload())]), prior);
  }

  /** A god spell whose target has an unknown key. */
  function CommandNestedUnknownPayload(): Json
  {
    Obj([("card_position", Int(3)), ("target", UnknownCase())])
  }

  /** As a `CommandCastSpellGod`, that payload keeps the inner struct `Invalid`. */
  lemma CommandNestedUnknownDecodes()
    ensures GetCommandCastSpellGod(CommandNestedUnknownPayload()) == Ok(CommandCastSpellGod(3, SingleTarget.Invalid))
  {
    assert Select(SingleTargetLabels, UnknownCase()) == Unlabelled;
  }

  /** That payload decodes as `CastSpellGod` with the inner struct left `Invalid`, which cannot be copied. */
  lemma CommandNestedUnknownCase()
    ensures CommandCase(CommandIndex(Command.CastSpellGod(DefaultCommandCastSpellGod)), CommandNestedUnknownPayload()) == Ok(Command.CastSpellGod(CommandCastSpellGod(3, SingleTarget.Invalid)))
    ensures !CommandEncodable(Command.CastSpellGod(CommandCastSpellGod(3, SingleTarget.Invalid)))
  {
    CommandNestedUnknownDecodes();
    hide CommandBuildHouseFromJson, CommandCastSpellGodMultiFromJson, CommandProduceSquadFromJson, CommandProduceSquadOnBarrierFromJson, CommandCastSpellEntityFromJson, CommandBarrierGateToggleFromJson, CommandBarrierBuildFromJson, CommandBarrierRepairFromJson, CommandBarrierCancelRepairFromJson, CommandRepairBuildingFromJson, CommandCancelRepairBuildingFromJson, CommandGroupAttackFromJson, CommandGroupEnterWallFromJson, CommandGroupExitWallFromJson, CommandGroupGotoFromJson, CommandGroupHoldPositionFromJson, CommandGroupStopJobFromJson, CommandModeChangeFromJson, CommandPowerSlotBuildFromJson, CommandTokenSlotBuildFromJson, CommandGroupKillEntityFromJson, CommandGroupSacrificeFromJson, CommandPortalDefineExitPointFromJson, CommandPortalRemoveExitPointFromJson, CommandTunnelMakeExitPointFromJson, CommandPingFromJson, CommandWhisperToMasterFromJson, GetCommandBuildHouse, GetCommandCastSpellGodMulti, GetCommandProduceSquad, GetCommandProduceSquadOnBarrier, GetCommandCastSpellEntity, GetCommandBarrierGateToggle, GetCommandBarrierBuild, GetCommandBarrierRepair, GetCommandBarrierCancelRepair, GetCommandRepairBuilding, GetCommandCancelRepairBuilding, GetCommandGroupAttack, GetCommandGroupEnterWall, GetCommandGroupExitWall, GetCommandGroupGoto, GetCommandGroupHoldPosition, GetCommandGroupStopJob, GetCommandModeChange, GetCommandPowerSlotBuild, GetCommandTokenSlotBuild, GetCommandGroupKillEntity, GetCommandGroupSacrifice, GetCommandPortalDefineExitPoint, GetCommandPortalRemoveExitPoint, GetCommandTunnelMakeExitPoint, GetCommandPing, GetCommandWhisperToMaster, CommandCastSpellGodFromJson, GetCommandCastSpellGod, CommandNestedUnknownPayload;
  }

  /** That payload under "CastSpellGod" selects the `CastSpellGod` case. */
  lemma CommandNestedUnknownSelects()
    ensures Select(CommandLabels, Obj([("CastSpellGod", CommandNestedUnknownPayload())])) == Selected(CommandIndex(Command.CastSpellGod(DefaultCommandCastSpellGod)), CommandNestedUnknownPayload())
  {
    var k := CommandIndex(Command.CastSpellGod(DefaultCommandCastSpellGod));
    assert CommandLabels[k - 1] == "CastSpellGod";
    CommandLabelsDistinct();
    SelectEncoded(CommandLabels, k, CommandNestedUnknownPayload());
  }

  /**
   * A god spell whose target has an unknown key: the `std::variant` form
   * keeps the inner struct `Invalid`, while the C-like `Command` refuses to
   * store it.
   */
  lemma CommandRefusesNestedInvalid(prior: Command)
    ensures CommandFromJson(Obj([("CastSpellGod", CommandNestedUnknownPayload())]), prior) == Ok(Command.CastSpellGod(CommandCastSpellGod(3, SingleTarget.Invalid)))
    ensures TypesCLike.Decode(CommandFamily, Obj([("CastSpellGod", CommandNestedUnknownPayload())]), prior) == Err(InvalidDefaultVariant)
  {
    CommandNestedUnknownSelects();
    CommandNestedUnknownCase();
    hide CommandNestedUnknownPayload, Select, CommandCase, CommandEncodable, CommandIndex;
    CommandFromJsonSelects(Obj([("CastSpellGod", CommandNestedUnknownPayload())]), prior);
  }

  /**
   * `t = t` on a struct holding a location target: the assignment clears
   * the struct before reading it, so it fails and leaves `Invalid`.
   */
  method SelfAssignmentLosesValue() returns (before: nat, after: nat, r: Outcome<()>)
    ensures before == 2 && after == 0 && r == Err(InvalidDefaultVariant)
  {
    var made := TypesCLike.Tagged.Of(SingleTargetFamily, SingleTarget.Location(DefaultSingleTargetLocation));
    var t := made.value;
    before := t.variantCase;
    r := t.Assign(t);
    after := t.variantCase;
  }

  /** With the source read before the clear, `t = t` succeeds and keeps the target. */
  method SelfAssignmentCheckedKeepsValue() returns (before: nat, after: nat, r: Outcome<()>)
    ensures before == 2 && after == 2 && r == Ok(())
  {
    var made := TypesCLike.Tagged.Of(SingleTargetFamily, SingleTarget.Location(DefaultSingleTargetLocation));
    var t := made.value;
    before := t.variantCase;
    r := t.AssignChecked(t);
    after := t.variantCase;
  }
}
