/**
 * The message catalog of the API: every record and tagged union the bot
 * and the game exchange, with its JSON encoding and decoding.
 *
 * A record is an object with one key per field; an optional field that is
 * empty is left out, and decoding leaves the field as it was when its key
 * is absent. A tagged union holds `Invalid` or one case; case `L` encodes as
 * `{"L": payload}`, and decoding selects the case from the first item only.
 * Decoders take the value being filled in (`prior`), as `from_json` does;
 * `GetX` starts from the default value, as `get<X>()` does.
 */
module Types {
  import opened Wrappers
  import opened Json
  import opened Codec

  /** The protocol version both sides must agree on. */
  const VERSION: u64 := 22

  type Upgrade = u32
  const UpgradeU0: Upgrade := 0
  const UpgradeU1: Upgrade := 1000000
  const UpgradeU2: Upgrade := 2000000
  const UpgradeU3: Upgrade := 3000000

  type CardId = u32
  type SquadId = u32
  type BuildingId = u32
  type SpellId = u32
  type AbilityId = u32
  type ModeId = u32
  type EntityId = u32
  type Tick = u32
  type TickCount = u32

  // enumerations travel as numbers
  type OrbColor = u32
  type CreateOrbColor = u32
  type WalkMode = u32
  type AbilityLine = u32
  type Ping = u32
  type WhyCanNotPlayCardThere = u32
  type Maps = u32

  /** The twenty card slots of a deck. */
  type Cards = s: seq<CardId> | |s| == 20 witness NoCards
  const NoCards: seq<CardId> := [0, 0, 0, 0, 0, 0, 0, 0, 0, 0, 0, 0, 0, 0, 0, 0, 0, 0, 0, 0]

  // Position
  datatype Position = Position(x: real, y: real, z: real)

  const DefaultPosition: Position := Position(0.0, 0.0, 0.0)

  function PositionToJson(v: Position): Outcome<Json>
  {
    var j1 := Put(Null, "x", Float(v.x));
    var j2 := Put(j1, "y", Float(v.y));
    var j3 := Put(j2, "z", Float(v.z));
    Ok(j3)
  }

  function PositionFromJson(j: Json, prior: Position): Outcome<Position>
  {
    var xJson :- At(j, "x");
    var x :- FloatFromJson(xJson);
    var yJson :- At(j, "y");
    var y :- FloatFromJson(yJson);
    var zJson :- At(j, "z");
    var z :- FloatFromJson(zJson);
    Ok(Position(x, y, z))
  }

  function GetPosition(j: Json): Outcome<Position>
  {
    PositionFromJson(j, DefaultPosition)
  }

  /** Each key of the encoded object holds its field, as written. */
  lemma PositionFields(v: Position)
    requires PositionToJson(v).Ok?
    ensures var j := PositionToJson(v).value;
      && j.Obj?
      && At(j, "x") == Ok(Float(v.x))
      && At(j, "y") == Ok(Float(v.y))
      && At(j, "z") == Ok(Float(v.z))
  {
    hide Put, PutOptional, Get, At, OptionalAt, SeqToJson, IntegerOf;
  }

  lemma PositionRoundTrip(v: Position)
    ensures PositionToJson(v).Ok? && PositionToJson(v).value.Obj?
    ensures GetPosition(PositionToJson(v).value) == Ok(v)
  {
    hide Put, PutOptional, Get, At, OptionalAt, EncodeEach, DecodeEach, SeqFromJson, FixedFromJson, IntegerOf, U8FromJson, U16FromJson, U32FromJson, U64FromJson, EnumFromJson, FloatFromJson, BoolFromJson, StringFromJson;
    if PositionToJson(v).Ok? {
      PositionFields(v);
      var j := PositionToJson(v).value;
      hide PositionToJson;
      assert FloatFromJson(Float(v.x)) == Ok(v.x);
      assert FloatFromJson(Float(v.y)) == Ok(v.y);
      assert FloatFromJson(Float(v.z)) == Ok(v.z);
      assert GetPosition(j) == Ok(v);
    }
  }

  // Position2D
  datatype Position2D = Position2D(x: real, y: real)

  const DefaultPosition2D: Position2D := Position2D(0.0, 0.0)

  function Position2DToJson(v: Position2D): Outcome<Json>
  {
    var j1 := Put(Null, "x", Float(v.x));
    var j2 := Put(j1, "y", Float(v.y));
    Ok(j2)
  }

  function Position2DFromJson(j: Json, prior: Position2D): Outcome<Position2D>
  {
    var xJson :- At(j, "x");
    var x :- FloatFromJson(xJson);
    var yJson :- At(j, "y");
    var y :- FloatFromJson(yJson);
    Ok(Position2D(x, y))
  }

  function GetPosition2D(j: Json): Outcome<Position2D>
  {
    Position2DFromJson(j, DefaultPosition2D)
  }

  lemma Position2DRoundTrip(v: Position2D)
    ensures Position2DToJson(v).Ok? && Position2DToJson(v).value.Obj?
    ensures GetPosition2D(Position2DToJson(v).value) == Ok(v)
  {
    hide Put, PutOptional, Get, At, OptionalAt, EncodeEach, DecodeEach, SeqFromJson, FixedFromJson, IntegerOf, U8FromJson, U16FromJson, U32FromJson, U64FromJson, EnumFromJson, FloatFromJson, BoolFromJson, StringFromJson;
  }

  /** A vector of `Position2D` reads back as written. */
  lemma Position2DSeqRoundTrip(s: seq<Position2D>)
    ensures hide *; SeqToJson(s, Position2DToJson).Ok?
    ensures hide *; SeqFromJson(SeqToJson(s, Position2DToJson).value, GetPosition2D) == Ok(s)
  {
    hide Position2DToJson, Position2DFromJson;
    forall i | 0 <= i < |s|
      ensures Position2DToJson(s[i]).Ok? && GetPosition2D(Position2DToJson(s[i]).value) == Ok(s[i])
    {
      Position2DRoundTrip(s[i]);
    }
    SeqRoundTrip(s, Position2DToJson, GetPosition2D);
  }

  // Position2DWithOrientation
  datatype Position2DWithOrientation = Position2DWithOrientation(x: real, y: real, orientation: real)

  const DefaultPosition2DWithOrientation: Position2DWithOrientation := Position2DWithOrientation(0.0, 0.0, 0.0)

  function Position2DWithOrientationToJson(v: Position2DWithOrientation): Outcome<Json>
  {
    var j1 := Put(Null, "x", Float(v.x));
    var j2 := Put(j1, "y", Float(v.y));
    var j3 := Put(j2, "orientation", Float(v.orientation));
    Ok(j3)
  }

  function Position2DWithOrientationFromJson(j: Json, prior: Position2DWithOrientation): Outcome<Position2DWithOrientation>
  {
    var xJson :- At(j, "x");
    var x :- FloatFromJson(xJson);
    var yJson :- At(j, "y");
    var y :- FloatFromJson(yJson);
    var orientationJson :- At(j, "orientation");
    var orientation :- FloatFromJson(orientationJson);
    Ok(Position2DWithOrientation(x, y, orientation))
  }

  function GetPosition2DWithOrientation(j: Json): Outcome<Position2DWithOrientation>
  {
    Position2DWithOrientationFromJson(j, DefaultPosition2DWithOrientation)
  }

  /** Each key of the encoded object holds its field, as written. */
  lemma Position2DWithOrientationFields(v: Position2DWithOrientation)
    requires Position2DWithOrientationToJson(v).Ok?
    ensures var j := Position2DWithOrientationToJson(v).value;
      && j.Obj?
      && At(j, "x") == Ok(Float(v.x))
      && At(j, "y") == Ok(Float(v.y))
      && At(j, "orientation") == Ok(Float(v.orientation))
  {
    hide Put, PutOptional, Get, At, OptionalAt, SeqToJson, IntegerOf;
  }

  lemma Position2DWithOrientationRoundTrip(v: Position2DWithOrientation)
    ensures Position2DWithOrientationToJson(v).Ok? && Position2DWithOrientationToJson(v).value.Obj?
    ensures GetPosition2DWithOrientation(Position2DWithOrientationToJson(v).value) == Ok(v)
  {
    hide Put, PutOptional, Get, At, OptionalAt, EncodeEach, DecodeEach, SeqFromJson, FixedFromJson, IntegerOf, U8FromJson, U16FromJson, U32FromJson, U64FromJson, EnumFromJson, FloatFromJson, BoolFromJson, StringFromJson;
    if Position2DWithOrientationToJson(v).Ok? {
      Position2DWithOrientationFields(v);
      var j := Position2DWithOrientationToJson(v).value;
      hide Position2DWithOrientationToJson;
      assert FloatFromJson(Float(v.x)) == Ok(v.x);
      assert FloatFromJson(Float(v.y)) == Ok(v.y);
      assert FloatFromJson(Float(v.orientation)) == Ok(v.orientation);
      assert GetPosition2DWithOrientation(j) == Ok(v);
    }
  }

  /** A vector of `Position2DWithOrientation` reads back as written. */
  lemma Position2DWithOrientationSeqRoundTrip(s: seq<Position2DWithOrientation>)
    ensures hide *; SeqToJson(s, Position2DWithOrientationToJson).Ok?
    ensures hide *; SeqFromJson(SeqToJson(s, Position2DWithOrientationToJson).value, GetPosition2DWithOrientation) == Ok(s)
  {
    hide Position2DWithOrientationToJson, Position2DWithOrientationFromJson;
    forall i | 0 <= i < |s|
      ensures Position2DWithOrientationToJson(s[i]).Ok? && GetPosition2DWithOrientation(Position2DWithOrientationToJson(s[i]).value) == Ok(s[i])
    {
      Position2DWithOrientationRoundTrip(s[i]);
    }
    SeqRoundTrip(s, Position2DWithOrientationToJson, GetPosition2DWithOrientation);
  }

  // SingleTargetSingleEntity
  datatype SingleTargetSingleEntity = SingleTargetSingleEntity(id: EntityId)

  const DefaultSingleTargetSingleEntity: SingleTargetSingleEntity := SingleTargetSingleEntity(0)

  function SingleTargetSingleEntityToJson(v: SingleTargetSingleEntity): Outcome<Json>
  {
    var j1 := Put(Null, "id", Int(v.id));
    Ok(j1)
  }

  function SingleTargetSingleEntityFromJson(j: Json, prior: SingleTargetSingleEntity): Outcome<SingleTargetSingleEntity>
  {
    var idJson :- At(j, "id");
    var id :- U32FromJson(idJson);
    Ok(SingleTargetSingleEntity(id))
  }

  function GetSingleTargetSingleEntity(j: Json): Outcome<SingleTargetSingleEntity>
  {
    SingleTargetSingleEntityFromJson(j, DefaultSingleTargetSingleEntity)
  }

  lemma SingleTargetSingleEntityRoundTrip(v: SingleTargetSingleEntity)
    ensures SingleTargetSingleEntityToJson(v).Ok? && SingleTargetSingleEntityToJson(v).value.Obj?
    ensures GetSingleTargetSingleEntity(SingleTargetSingleEntityToJson(v).value) == Ok(v)
  {
    hide Put, PutOptional, Get, At, OptionalAt, EncodeEach, DecodeEach, SeqFromJson, FixedFromJson, IntegerOf, U8FromJson, U16FromJson, U32FromJson, U64FromJson, EnumFromJson, FloatFromJson, BoolFromJson, StringFromJson;
  }

  // SingleTargetLocation
  datatype SingleTargetLocation = SingleTargetLocation(xy: Position2D)

  const DefaultSingleTargetLocation: SingleTargetLocation := SingleTargetLocation(DefaultPosition2D)

  function SingleTargetLocationToJson(v: SingleTargetLocation): Outcome<Json>
  {
    hide Position2DToJson;
    var xyJson :- Position2DToJson(v.xy);
    var j1 := Put(Null, "xy", xyJson);
    Ok(j1)
  }

  function SingleTargetLocationFromJson(j: Json, prior: SingleTargetLocation): Outcome<SingleTargetLocation>
  {
    hide Position2DFromJson;
    var xyJson :- At(j, "xy");
    var xy :- Position2DFromJson(xyJson, prior.xy);
    Ok(SingleTargetLocation(xy))
  }

  function GetSingleTargetLocation(j: Json): Outcome<SingleTargetLocation>
  {
    SingleTargetLocationFromJson(j, DefaultSingleTargetLocation)
  }

  /** Each key of the encoded object holds its field, as written. */
  lemma SingleTargetLocationFields(v: SingleTargetLocation)
    requires SingleTargetLocationToJson(v).Ok?
    ensures hide *; var j := SingleTargetLocationToJson(v).value;
      && j.Obj?
      && Position2DToJson(v.xy).Ok?
      && At(j, "xy") == Ok(Position2DToJson(v.xy).value)
  {
    hide Position2DToJson, Put, PutOptional, Get, At, OptionalAt, SeqToJson, IntegerOf;
  }

  lemma SingleTargetLocationRoundTrip(v: SingleTargetLocation)
    ensures hide *; SingleTargetLocationToJson(v).Ok? && SingleTargetLocationToJson(v).value.Obj?
    ensures hide *; GetSingleTargetLocation(SingleTargetLocationToJson(v).value) == Ok(v)
  {
    hide Position2DToJson, Position2DFromJson, Put, PutOptional, Get, At, OptionalAt, EncodeEach, DecodeEach, SeqFromJson, FixedFromJson, IntegerOf, U8FromJson, U16FromJson, U32FromJson, U64FromJson, EnumFromJson, FloatFromJson, BoolFromJson, StringFromJson;
    Position2DRoundTrip(v.xy);
    if SingleTargetLocationToJson(v).Ok? {
      SingleTargetLocationFields(v);
      var j := SingleTargetLocationToJson(v).value;
      hide SingleTargetLocationToJson;
      assert GetSingleTargetLocation(j) == Ok(v);
    }
  }

  // SingleTarget
  datatype SingleTarget =
    | Invalid
    | SingleEntity(singleEntity: SingleTargetSingleEntity)
    | Location(location: SingleTargetLocation)

  /** The labels `from_json` tests, in order. */
  const SingleTargetLabels: seq<string> := ["SingleEntity", "Location"]

  /** The position of the case in the `std::variant`; 0 is `Invalid`. */
  function SingleTargetIndex(v: SingleTarget): nat
  {
    match v
    case Invalid => 0
    case SingleEntity(_) => 1
    case Location(_) => 2
  }

  predicate SingleTargetEncodable(v: SingleTarget)
  {
    match v
    case Invalid => false
    case SingleEntity(_) => true
    case Location(_) => true
  }

  /** The payload of the active case, as the union member holding it encodes. */
  function SingleTargetPayloadToJson(v: SingleTarget): Outcome<Json>
  {
    hide SingleTargetSingleEntityToJson, SingleTargetLocationToJson;
    match v
    case Invalid => Err(InvalidDefaultVariant)
    case SingleEntity(p) => SingleTargetSingleEntityToJson(p)
    case Location(p) => SingleTargetLocationToJson(p)
  }

  function SingleTargetToJson(v: SingleTarget): Outcome<Json>
  {
    hide SingleTargetSingleEntityToJson, SingleTargetLocationToJson;
    match v
    case Invalid => Err(InvalidDefaultVariant)
    case SingleEntity(p) => var x :- SingleTargetSingleEntityToJson(p); Ok(Obj([("SingleEntity", x)]))
    case Location(p) => var x :- SingleTargetLocationToJson(p); Ok(Obj([("Location", x)]))
  }

  /** `value.get<Payload>()` for case `index` of `SingleTargetLabels`. */
  function SingleTargetCase(index: nat, payload: Json): Outcome<SingleTarget>
    requires 1 <= index <= |SingleTargetLabels|
  {
    hide SingleTargetSingleEntityFromJson, SingleTargetLocationFromJson;
    match index
    case 1 => var x :- GetSingleTargetSingleEntity(payload); Ok(SingleTarget.SingleEntity(x))
    case _ => var x :- GetSingleTargetLocation(payload); Ok(SingleTarget.Location(x))
  }

  function SingleTargetFromJson(j: Json, prior: SingleTarget): Outcome<SingleTarget>
  {
    match Select(SingleTargetLabels, j)
    case NoItems => Err(InvalidJson)
    case Unlabelled => Ok(prior)
    case Selected(index, payload) => SingleTargetCase(index, payload)
  }

  function GetSingleTarget(j: Json): Outcome<SingleTarget>
  {
    SingleTargetFromJson(j, SingleTarget.Invalid)
  }

  /** No label of `SingleTargetLabels` occurs twice. */
  lemma SingleTargetLabelsDistinct()
    ensures Distinct(SingleTargetLabels)
  {
  }

  lemma SingleTargetRoundTrip(v: SingleTarget, prior: SingleTarget)
    ensures hide *; SingleTargetToJson(v).Ok? <==> SingleTargetEncodable(v)
    ensures hide *; SingleTargetEncodable(v) ==> SingleTargetFromJson(SingleTargetToJson(v).value, prior) == Ok(v)
  {
    SingleTargetLabelsDistinct();
    hide SingleTargetSingleEntityToJson, SingleTargetSingleEntityFromJson, SingleTargetLocationToJson, SingleTargetLocationFromJson, Select, Items, LastIndexOf, Distinct;
    match v
    case Invalid =>
    case SingleEntity(p) =>
      SingleTargetSingleEntityRoundTrip(p);
      if SingleTargetSingleEntityToJson(p).Ok? {
        SelectEncoded(SingleTargetLabels, 1, SingleTargetSingleEntityToJson(p).value);
      }
    case Location(p) =>
      SingleTargetLocationRoundTrip(p);
      if SingleTargetLocationToJson(p).Ok? {
        SelectEncoded(SingleTargetLabels, 2, SingleTargetLocationToJson(p).value);
      }
  }

  // TargetSingle
  datatype TargetSingle = TargetSingle(single: SingleTarget)

  const DefaultTargetSingle: TargetSingle := TargetSingle(SingleTarget.Invalid)

  predicate TargetSingleEncodable(v: TargetSingle)
  {
    hide SingleTargetEncodable;
    SingleTargetEncodable(v.single)
  }

  function TargetSingleToJson(v: TargetSingle): Outcome<Json>
  {
    hide SingleTargetToJson;
    var singleJson :- SingleTargetToJson(v.single);
    var j1 := Put(Null, "single", singleJson);
    Ok(j1)
  }

  function TargetSingleFromJson(j: Json, prior: TargetSingle): Outcome<TargetSingle>
  {
    hide SingleTargetFromJson;
    var singleJson :- At(j, "single");
    var single :- SingleTargetFromJson(singleJson, prior.single);
    Ok(TargetSingle(single))
  }

  function GetTargetSingle(j: Json): Outcome<TargetSingle>
  {
    TargetSingleFromJson(j, DefaultTargetSingle)
  }

  /** Each key of the encoded object holds its field, as written. */
  lemma TargetSingleFields(v: TargetSingle)
    requires TargetSingleToJson(v).Ok?
    ensures hide *; var j := TargetSingleToJson(v).value;
      && j.Obj?
      && SingleTargetToJson(v.single).Ok?
      && At(j, "single") == Ok(SingleTargetToJson(v.single).value)
  {
    hide SingleTargetToJson, Put, PutOptional, Get, At, OptionalAt, SeqToJson, IntegerOf;
  }

  lemma TargetSingleRoundTrip(v: TargetSingle)
    ensures hide *; TargetSingleToJson(v).Ok? <==> TargetSingleEncodable(v)
    ensures hide *; TargetSingleToJson(v).Ok? ==> TargetSingleToJson(v).value.Obj?
    ensures hide *; TargetSingleEncodable(v) ==> GetTargetSingle(TargetSingleToJson(v).value) == Ok(v)
  {
    hide SingleTargetToJson, SingleTargetFromJson, SingleTargetEncodable, Put, PutOptional, Get, At, OptionalAt, EncodeEach, DecodeEach, SeqFromJson, FixedFromJson, IntegerOf, U8FromJson, U16FromJson, U32FromJson, U64FromJson, EnumFromJson, FloatFromJson, BoolFromJson, StringFromJson;
    SingleTargetRoundTrip(v.single, SingleTarget.Invalid);
    if TargetSingleToJson(v).Ok? && TargetSingleEncodable(v) {
      TargetSingleFields(v);
      var j := TargetSingleToJson(v).value;
      hide TargetSingleToJson;
      assert GetTargetSingle(j) == Ok(v);
    }
  }

  // TargetMulti
  datatype TargetMulti = TargetMulti(xyBegin: Position2D, xyEnd: Position2D)

  const DefaultTargetMulti: TargetMulti := TargetMulti(DefaultPosition2D, DefaultPosition2D)

  function TargetMultiToJson(v: TargetMulti): Outcome<Json>
  {
    hide Position2DToJson;
    var xyBeginJson :- Position2DToJson(v.xyBegin);
    var j1 := Put(Null, "xy_begin", xyBeginJson);
    var xyEndJson :- Position2DToJson(v.xyEnd);
    var j2 := Put(j1, "xy_end", xyEndJson);
    Ok(j2)
  }

  function TargetMultiFromJson(j: Json, prior: TargetMulti): Outcome<TargetMulti>
  {
    hide Position2DFromJson;
    var xyBeginJson :- At(j, "xy_begin");
    var xyBegin :- Position2DFromJson(xyBeginJson, prior.xyBegin);
    var xyEndJson :- At(j, "xy_end");
    var xyEnd :- Position2DFromJson(xyEndJson, prior.xyEnd);
    Ok(TargetMulti(xyBegin, xyEnd))
  }

  function GetTargetMulti(j: Json): Outcome<TargetMulti>
  {
    TargetMultiFromJson(j, DefaultTargetMulti)
  }

  /** Each key of the encoded object holds its field, as written. */
  lemma TargetMultiFields(v: TargetMulti)
    requires TargetMultiToJson(v).Ok?
    ensures hide *; var j := TargetMultiToJson(v).value;
      && j.Obj?
      && Position2DToJson(v.xyBegin).Ok?
      && At(j, "xy_begin") == Ok(Position2DToJson(v.xyBegin).value)
      && Position2DToJson(v.xyEnd).Ok?
      && At(j, "xy_end") == Ok(Position2DToJson(v.xyEnd).value)
  {
    hide Position2DToJson, Put, PutOptional, Get, At, OptionalAt, SeqToJson, IntegerOf;
  }

  lemma TargetMultiRoundTrip(v: TargetMulti)
    ensures hide *; TargetMultiToJson(v).Ok? && TargetMultiToJson(v).value.Obj?
    ensures hide *; GetTargetMulti(TargetMultiToJson(v).value) == Ok(v)
  {
    hide Position2DToJson, Position2DFromJson, Put, PutOptional, Get, At, OptionalAt, EncodeEach, DecodeEach, SeqFromJson, FixedFromJson, IntegerOf, U8FromJson, U16FromJson, U32FromJson, U64FromJson, EnumFromJson, FloatFromJson, BoolFromJson, StringFromJson;
    Position2DRoundTrip(v.xyBegin);
    Position2DRoundTrip(v.xyEnd);
    if TargetMultiToJson(v).Ok? {
      TargetMultiFields(v);
      var j := TargetMultiToJson(v).value;
      hide TargetMultiToJson;
      assert GetTargetMulti(j) == Ok(v);
    }
  }

  // Target
  datatype Target =
    | Invalid
    | Single(single: TargetSingle)
    | Multi(multi: TargetMulti)

  /** The labels `from_json` tests, in order. */
  const TargetLabels: seq<string> := ["Single", "Multi"]

  /** The position of the case in the `std::variant`; 0 is `Invalid`. */
  function TargetIndex(v: Target): nat
  {
    match v
    case Invalid => 0
    case Single(_) => 1
    case Multi(_) => 2
  }

  predicate TargetEncodable(v: Target)
  {
    hide TargetSingleEncodable;
    match v
    case Invalid => false
    case Single(p) => TargetSingleEncodable(p)
    case Multi(_) => true
  }

  /** The payload of the active case, as the union member holding it encodes. */
  function TargetPayloadToJson(v: Target): Outcome<Json>
  {
    hide TargetSingleToJson, TargetMultiToJson;
    match v
    case Invalid => Err(InvalidDefaultVariant)
    case Single(p) => TargetSingleToJson(p)
    case Multi(p) => TargetMultiToJson(p)
  }

  function TargetToJson(v: Target): Outcome<Json>
  {
    hide TargetSingleToJson, TargetMultiToJson;
    match v
    case Invalid => Err(InvalidDefaultVariant)
    case Single(p) => var x :- TargetSingleToJson(p); Ok(Obj([("Single", x)]))
    case Multi(p) => var x :- TargetMultiToJson(p); Ok(Obj([("Multi", x)]))
  }

  /** `value.get<Payload>()` for case `index` of `TargetLabels`. */
  function TargetCase(index: nat, payload: Json): Outcome<Target>
    requires 1 <= index <= |TargetLabels|
  {
    hide TargetSingleFromJson, TargetMultiFromJson;
    match index
    case 1 => var x :- GetTargetSingle(payload); Ok(Target.Single(x))
    case _ => var x :- GetTargetMulti(payload); Ok(Target.Multi(x))
  }

  function TargetFromJson(j: Json, prior: Target): Outcome<Target>
  {
    match Select(TargetLabels, j)
    case NoItems => Err(InvalidJson)
    case Unlabelled => Ok(prior)
    case Selected(index, payload) => TargetCase(index, payload)
  }

  function GetTarget(j: Json): Outcome<Target>
  {
    TargetFromJson(j, Target.Invalid)
  }

  /** No label of `TargetLabels` occurs twice. */
  lemma TargetLabelsDistinct()
    ensures Distinct(TargetLabels)
  {
  }

  lemma TargetRoundTrip(v: Target, prior: Target)
    ensures hide *; TargetToJson(v).Ok? <==> TargetEncodable(v)
    ensures hide *; TargetEncodable(v) ==> TargetFromJson(TargetToJson(v).value, prior) == Ok(v)
  {
    TargetLabelsDistinct();
    hide TargetSingleToJson, TargetSingleFromJson, TargetSingleEncodable, TargetMultiToJson, TargetMultiFromJson, Select, Items, LastIndexOf, Distinct;
    match v
    case Invalid =>
    case Single(p) =>
      TargetSingleRoundTrip(p);
      if TargetSingleToJson(p).Ok? {
        SelectEncoded(TargetLabels, 1, TargetSingleToJson(p).value);
      }
    case Multi(p) =>
      TargetMultiRoundTrip(p);
      if TargetMultiToJson(p).Ok? {
        SelectEncoded(TargetLabels, 2, TargetMultiToJson(p).value);
      }
  }

  // CommunityMapInfo
  datatype CommunityMapInfo = CommunityMapInfo(name: string, crc: u64)

  const DefaultCommunityMapInfo: CommunityMapInfo := CommunityMapInfo("", 0)

  function CommunityMapInfoToJson(v: CommunityMapInfo): Outcome<Json>
  {
    var j1 := Put(Null, "name", Str(v.name));
    var j2 := Put(j1, "crc", Int(v.crc));
    Ok(j2)
  }

  function CommunityMapInfoFromJson(j: Json, prior: CommunityMapInfo): Outcome<CommunityMapInfo>
  {
    var nameJson :- At(j, "name");
    var name :- StringFromJson(nameJson);
    var crcJson :- At(j, "crc");
    var crc :- U64FromJson(crcJson);
    Ok(CommunityMapInfo(name, crc))
  }

  function GetCommunityMapInfo(j: Json): Outcome<CommunityMapInfo>
  {
    CommunityMapInfoFromJson(j, DefaultCommunityMapInfo)
  }

  lemma CommunityMapInfoRoundTrip(v: CommunityMapInfo)
    ensures CommunityMapInfoToJson(v).Ok? && CommunityMapInfoToJson(v).value.Obj?
    ensures GetCommunityMapInfo(CommunityMapInfoToJson(v).value) == Ok(v)
  {
    hide Put, PutOptional, Get, At, OptionalAt, EncodeEach, DecodeEach, SeqFromJson, FixedFromJson, IntegerOf, U8FromJson, U16FromJson, U32FromJson, U64FromJson, EnumFromJson, FloatFromJson, BoolFromJson, StringFromJson;
  }

  // MapInfo
  datatype MapInfo = MapInfo(mapId: Maps, communityMapDetails: Option<CommunityMapInfo>)

  const DefaultMapInfo: MapInfo := MapInfo(0, None)

  function MapInfoToJson(v: MapInfo): Outcome<Json>
  {
    hide CommunityMapInfoToJson;
    var j1 := Put(Null, "map", Int(v.mapId));
    var j2 :- if v.communityMapDetails.None? then Ok(j1) else
      var x :- CommunityMapInfoToJson(v.communityMapDetails.value);
      Ok(Put(j1, "community_map_details", x));
    Ok(j2)
  }

  function MapInfoFromJson(j: Json, prior: MapInfo): Outcome<MapInfo>
  {
    hide CommunityMapInfoFromJson;
    var mapIdJson :- At(j, "map");
    var mapId :- EnumFromJson(mapIdJson);
    var communityMapDetails :- OptionalAt(j, "community_map_details", prior.communityMapDetails, GetCommunityMapInfo);
    Ok(MapInfo(mapId, communityMapDetails))
  }

  function GetMapInfo(j: Json): Outcome<MapInfo>
  {
    MapInfoFromJson(j, DefaultMapInfo)
  }

  /** Each key of the encoded object holds its field, as written. */
  lemma MapInfoFields(v: MapInfo)
    requires MapInfoToJson(v).Ok?
    ensures hide *; var j := MapInfoToJson(v).value;
      && j.Obj?
      && At(j, "map") == Ok(Int(v.mapId))
      && (v.communityMapDetails.Some? ==> CommunityMapInfoToJson(v.communityMapDetails.value).Ok?)
      && Get(j, "community_map_details") == (if v.communityMapDetails.Some? then Some(CommunityMapInfoToJson(v.communityMapDetails.value).value) else None)
  {
    hide CommunityMapInfoToJson, Put, PutOptional, Get, At, OptionalAt, SeqToJson, IntegerOf;
  }

  lemma MapInfoRoundTrip(v: MapInfo)
    ensures hide *; MapInfoToJson(v).Ok? && MapInfoToJson(v).value.Obj?
    ensures hide *; GetMapInfo(MapInfoToJson(v).value) == Ok(v)
  {
    hide CommunityMapInfoToJson, CommunityMapInfoFromJson, Put, PutOptional, Get, At, OptionalAt, EncodeEach, DecodeEach, SeqFromJson, FixedFromJson, IntegerOf, U8FromJson, U16FromJson, U32FromJson, U64FromJson, EnumFromJson, FloatFromJson, BoolFromJson, StringFromJson;
    if v.communityMapDetails.Some? {
      CommunityMapInfoRoundTrip(v.communityMapDetails.value);
    }
    if MapInfoToJson(v).Ok? {
      MapInfoFields(v);
      var j := MapInfoToJson(v).value;
      hide MapInfoToJson;
      assert EnumFromJson(Int(v.mapId)) == Ok(v.mapId);
      assert GetMapInfo(j) == Ok(v);
    }
  }

  // Deck
  datatype Deck = Deck(name: string, coverCardIndex: u8, cards: Cards)

  const DefaultDeck: Deck := Deck("", 0, NoCards)

  function DeckToJson(v: Deck): Outcome<Json>
  {
    var j1 := Put(Null, "name", Str(v.name));
    var j2 := Put(j1, "cover_card_index", Int(v.coverCardIndex));
    var cardsJson :- SeqToJson(v.cards, U32ToJson);
    var j3 := Put(j2, "cards", cardsJson);
    Ok(j3)
  }

  function DeckFromJson(j: Json, prior: Deck): Outcome<Deck>
  {
    var nameJson :- At(j, "name");
    var name :- StringFromJson(nameJson);
    var coverCardIndexJson :- At(j, "cover_card_index");
    var coverCardIndex :- U8FromJson(coverCardIndexJson);
    var cardsJson :- At(j, "cards");
    var cards :- FixedFromJson(cardsJson, 20, U32FromJson);
    Ok(Deck(name, coverCardIndex, cards))
  }

  function GetDeck(j: Json): Outcome<Deck>
  {
    DeckFromJson(j, DefaultDeck)
  }

  /** Each key of the encoded object holds its field, as written. */
  lemma DeckFields(v: Deck)
    requires DeckToJson(v).Ok?
    ensures var j := DeckToJson(v).value;
      && j.Obj?
      && At(j, "name") == Ok(Str(v.name))
      && At(j, "cover_card_index") == Ok(Int(v.coverCardIndex))
      && SeqToJson(v.cards, U32ToJson).Ok?
      && At(j, "cards") == Ok(SeqToJson(v.cards, U32ToJson).value)
  {
    hide Put, PutOptional, Get, At, OptionalAt, SeqToJson, IntegerOf;
  }

  lemma DeckRoundTrip(v: Deck)
    ensures DeckToJson(v).Ok? && DeckToJson(v).value.Obj?
    ensures GetDeck(DeckToJson(v).value) == Ok(v)
  {
    hide Put, PutOptional, Get, At, OptionalAt, EncodeEach, DecodeEach, SeqFromJson, FixedFromJson, IntegerOf, U8FromJson, U16FromJson, U32FromJson, U64FromJson, EnumFromJson, FloatFromJson, BoolFromJson, StringFromJson;
    FixedRoundTrip(v.cards, U32ToJson, U32FromJson);
    if DeckToJson(v).Ok? {
      DeckFields(v);
      var j := DeckToJson(v).value;
      hide DeckToJson;
      assert StringFromJson(Str(v.name)) == Ok(v.name);
      assert U8FromJson(Int(v.coverCardIndex)) == Ok(v.coverCardIndex);
      assert GetDeck(j) == Ok(v);
    }
  }

  /** A vector of `Deck` reads back as written. */
  lemma DeckSeqRoundTrip(s: seq<Deck>)
    ensures hide *; SeqToJson(s, DeckToJson).Ok?
    ensures hide *; SeqFromJson(SeqToJson(s, DeckToJson).value, GetDeck) == Ok(s)
  {
    hide DeckToJson, DeckFromJson;
    forall i | 0 <= i < |s|
      ensures DeckToJson(s[i]).Ok? && GetDeck(DeckToJson(s[i]).value) == Ok(s[i])
    {
      DeckRoundTrip(s[i]);
    }
    SeqRoundTrip(s, DeckToJson, GetDeck);
  }

  // AreaShapeCircle
  datatype AreaShapeCircle = AreaShapeCircle(center: Position2D, radius: real)

  const DefaultAreaShapeCircle: AreaShapeCircle := AreaShapeCircle(DefaultPosition2D, 0.0)

  function AreaShapeCircleToJson(v: AreaShapeCircle): Outcome<Json>
  {
    hide Position2DToJson;
    var centerJson :- Position2DToJson(v.center);
    var j1 := Put(Null, "center", centerJson);
    var j2 := Put(j1, "radius", Float(v.radius));
    Ok(j2)
  }

  function AreaShapeCircleFromJson(j: Json, prior: AreaShapeCircle): Outcome<AreaShapeCircle>
  {
    hide Position2DFromJson;
    var centerJson :- At(j, "center");
    var center :- Position2DFromJson(centerJson, prior.center);
    var radiusJson :- At(j, "radius");
    var radius :- FloatFromJson(radiusJson);
    Ok(AreaShapeCircle(center, radius))
  }

  function GetAreaShapeCircle(j: Json): Outcome<AreaShapeCircle>
  {
    AreaShapeCircleFromJson(j, DefaultAreaShapeCircle)
  }

  /** Each key of the encoded object holds its field, as written. */
  lemma AreaShapeCircleFields(v: AreaShapeCircle)
    requires AreaShapeCircleToJson(v).Ok?
    ensures hide *; var j := AreaShapeCircleToJson(v).value;
      && j.Obj?
      && Position2DToJson(v.center).Ok?
      && At(j, "center") == Ok(Position2DToJson(v.center).value)
      && At(j, "radius") == Ok(Float(v.radius))
  {
    hide Position2DToJson, Put, PutOptional, Get, At, OptionalAt, SeqToJson, IntegerOf;
  }

  lemma AreaShapeCircleRoundTrip(v: AreaShapeCircle)
    ensures hide *; AreaShapeCircleToJson(v).Ok? && AreaShapeCircleToJson(v).value.Obj?
    ensures hide *; GetAreaShapeCircle(AreaShapeCircleToJson(v).value) == Ok(v)
  {
    hide Position2DToJson, Position2DFromJson, Put, PutOptional, Get, At, OptionalAt, EncodeEach, DecodeEach, SeqFromJson, FixedFromJson, IntegerOf, U8FromJson, U16FromJson, U32FromJson, U64FromJson, EnumFromJson, FloatFromJson, BoolFromJson, StringFromJson;
    Position2DRoundTrip(v.center);
    if AreaShapeCircleToJson(v).Ok? {
      AreaShapeCircleFields(v);
      var j := AreaShapeCircleToJson(v).value;
      hide AreaShapeCircleToJson;
      assert FloatFromJson(Float(v.radius)) == Ok(v.radius);
      assert GetAreaShapeCircle(j) == Ok(v);
    }
  }

  // AreaShapeCone
  datatype AreaShapeCone = AreaShapeCone(base: Position2D, radius: real, angle: real)

  const DefaultAreaShapeCone: AreaShapeCone := AreaShapeCone(DefaultPosition2D, 0.0, 0.0)

  function AreaShapeConeToJson(v: AreaShapeCone): Outcome<Json>
  {
    hide Position2DToJson;
    var baseJson :- Position2DToJson(v.base);
    var j1 := Put(Null, "base", baseJson);
    var j2 := Put(j1, "radius", Float(v.radius));
    var j3 := Put(j2, "angle", Float(v.angle));
    Ok(j3)
  }

  function AreaShapeConeFromJson(j: Json, prior: AreaShapeCone): Outcome<AreaShapeCone>
  {
    hide Position2DFromJson;
    var baseJson :- At(j, "base");
    var base :- Position2DFromJson(baseJson, prior.base);
    var radiusJson :- At(j, "radius");
    var radius :- FloatFromJson(radiusJson);
    var angleJson :- At(j, "angle");
    var angle :- FloatFromJson(angleJson);
    Ok(AreaShapeCone(base, radius, angle))
  }

  function GetAreaShapeCone(j: Json): Outcome<AreaShapeCone>
  {
    AreaShapeConeFromJson(j, DefaultAreaShapeCone)
  }

  /** Each key of the encoded object holds its field, as written. */
  lemma AreaShapeConeFields(v: AreaShapeCone)
    requires AreaShapeConeToJson(v).Ok?
    ensures hide *; var j := AreaShapeConeToJson(v).value;
      && j.Obj?
      && Position2DToJson(v.base).Ok?
      && At(j, "base") == Ok(Position2DToJson(v.base).value)
      && At(j, "radius") == Ok(Float(v.radius))
      && At(j, "angle") == Ok(Float(v.angle))
  {
    hide Position2DToJson, Put, PutOptional, Get, At, OptionalAt, SeqToJson, IntegerOf;
  }

  lemma AreaShapeConeRoundTrip(v: AreaShapeCone)
    ensures hide *; AreaShapeConeToJson(v).Ok? && AreaShapeConeToJson(v).value.Obj?
    ensures hide *; GetAreaShapeCone(AreaShapeConeToJson(v).value) == Ok(v)
  {
    hide Position2DToJson, Position2DFromJson, Put, PutOptional, Get, At, OptionalAt, EncodeEach, DecodeEach, SeqFromJson, FixedFromJson, IntegerOf, U8FromJson, U16FromJson, U32FromJson, U64FromJson, EnumFromJson, FloatFromJson, BoolFromJson, StringFromJson;
    Position2DRoundTrip(v.base);
    if AreaShapeConeToJson(v).Ok? {
      AreaShapeConeFields(v);
      var j := AreaShapeConeToJson(v).value;
      hide AreaShapeConeToJson;
      assert FloatFromJson(Float(v.radius)) == Ok(v.radius);
      assert FloatFromJson(Float(v.angle)) == Ok(v.angle);
      assert GetAreaShapeCone(j) == Ok(v);
    }
  }

  // AreaShapeConeCut
  datatype AreaShapeConeCut = AreaShapeConeCut(start: Position2D, end: Position2D, radius: real, widthNear: real, widthFar: real)

  const DefaultAreaShapeConeCut: AreaShapeConeCut := AreaShapeConeCut(DefaultPosition2D, DefaultPosition2D, 0.0, 0.0, 0.0)

  function AreaShapeConeCutToJson(v: AreaShapeConeCut): Outcome<Json>
  {
    hide Position2DToJson;
    var startJson :- Position2DToJson(v.start);
    var j1 := Put(Null, "start", startJson);
    var endJson :- Position2DToJson(v.end);
    var j2 := Put(j1, "end", endJson);
    var j3 := Put(j2, "radius", Float(v.radius));
    var j4 := Put(j3, "width_near", Float(v.widthNear));
    var j5 := Put(j4, "width_far", Float(v.widthFar));
    Ok(j5)
  }

  function AreaShapeConeCutFromJson(j: Json, prior: AreaShapeConeCut): Outcome<AreaShapeConeCut>
  {
    hide Position2DFromJson;
    var startJson :- At(j, "start");
    var start :- Position2DFromJson(startJson, prior.start);
    var endJson :- At(j, "end");
    var end :- Position2DFromJson(endJson, prior.end);
    var radiusJson :- At(j, "radius");
    var radius :- FloatFromJson(radiusJson);
    var widthNearJson :- At(j, "width_near");
    var widthNear :- FloatFromJson(widthNearJson);
    var widthFarJson :- At(j, "width_far");
    var widthFar :- FloatFromJson(widthFarJson);
    Ok(AreaShapeConeCut(start, end, radius, widthNear, widthFar))
  }

  function GetAreaShapeConeCut(j: Json): Outcome<AreaShapeConeCut>
  {
    AreaShapeConeCutFromJson(j, DefaultAreaShapeConeCut)
  }

  /** Each key of the encoded object holds its field, as written. */
  lemma AreaShapeConeCutFields(v: AreaShapeConeCut)
    requires AreaShapeConeCutToJson(v).Ok?
    ensures hide *; var j := AreaShapeConeCutToJson(v).value;
      && j.Obj?
      && Position2DToJson(v.start).Ok?
      && At(j, "start") == Ok(Position2DToJson(v.start).value)
      && Position2DToJson(v.end).Ok?
      && At(j, "end") == Ok(Position2DToJson(v.end).value)
      && At(j, "radius") == Ok(Float(v.radius))
      && At(j, "width_near") == Ok(Float(v.widthNear))
      && At(j, "width_far") == Ok(Float(v.widthFar))
  {
    hide Position2DToJson, Put, PutOptional, Get, At, OptionalAt, SeqToJson, IntegerOf;
  }

  lemma AreaShapeConeCutRoundTrip(v: AreaShapeConeCut)
    ensures hide *; AreaShapeConeCutToJson(v).Ok? && AreaShapeConeCutToJson(v).value.Obj?
    ensures hide *; GetAreaShapeConeCut(AreaShapeConeCutToJson(v).value) == Ok(v)
  {
    hide Position2DToJson, Position2DFromJson, Put, PutOptional, Get, At, OptionalAt, EncodeEach, DecodeEach, SeqFromJson, FixedFromJson, IntegerOf, U8FromJson, U16FromJson, U32FromJson, U64FromJson, EnumFromJson, FloatFromJson, BoolFromJson, StringFromJson;
    Position2DRoundTrip(v.start);
    Position2DRoundTrip(v.end);
    if AreaShapeConeCutToJson(v).Ok? {
      AreaShapeConeCutFields(v);
      var j := AreaShapeConeCutToJson(v).value;
      hide AreaShapeConeCutToJson;
      assert FloatFromJson(Float(v.radius)) == Ok(v.radius);
      assert FloatFromJson(Float(v.widthNear)) == Ok(v.widthNear);
      assert FloatFromJson(Float(v.widthFar)) == Ok(v.widthFar);
      assert GetAreaShapeConeCut(j) == Ok(v);
    }
  }

  // AreaShapeWideLine
  datatype AreaShapeWideLine = AreaShapeWideLine(start: Position2D, end: Position2D, width: real)

  const DefaultAreaShapeWideLine: AreaShapeWideLine := AreaShapeWideLine(DefaultPosition2D, DefaultPosition2D, 0.0)

  function AreaShapeWideLineToJson(v: AreaShapeWideLine): Outcome<Json>
  {
    hide Position2DToJson;
    var startJson :- Position2DToJson(v.start);
    var j1 := Put(Null, "start", startJson);
    var endJson :- Position2DToJson(v.end);
    var j2 := Put(j1, "end", endJson);
    var j3 := Put(j2, "width", Float(v.width));
    Ok(j3)
  }

  function AreaShapeWideLineFromJson(j: Json, prior: AreaShapeWideLine): Outcome<AreaShapeWideLine>
  {
    hide Position2DFromJson;
    var startJson :- At(j, "start");
    var start :- Position2DFromJson(startJson, prior.start);
    var endJson :- At(j, "end");
    var end :- Position2DFromJson(endJson, prior.end);
    var widthJson :- At(j, "width");
    var width :- FloatFromJson(widthJson);
    Ok(AreaShapeWideLine(start, end, width))
  }

  function GetAreaShapeWideLine(j: Json): Outcome<AreaShapeWideLine>
  {
    AreaShapeWideLineFromJson(j, DefaultAreaShapeWideLine)
  }

  /** Each key of the encoded object holds its field, as written. */
  lemma AreaShapeWideLineFields(v: AreaShapeWideLine)
    requires AreaShapeWideLineToJson(v).Ok?
    ensures hide *; var j := AreaShapeWideLineToJson(v).value;
      && j.Obj?
      && Position2DToJson(v.start).Ok?
      && At(j, "start") == Ok(Position2DToJson(v.start).value)
      && Position2DToJson(v.end).Ok?
      && At(j, "end") == Ok(Position2DToJson(v.end).value)
      && At(j, "width") == Ok(Float(v.width))
  {
    hide Position2DToJson, Put, PutOptional, Get, At, OptionalAt, SeqToJson, IntegerOf;
  }

  lemma AreaShapeWideLineRoundTrip(v: AreaShapeWideLine)
    ensures hide *; AreaShapeWideLineToJson(v).Ok? && AreaShapeWideLineToJson(v).value.Obj?
    ensures hide *; GetAreaShapeWideLine(AreaShapeWideLineToJson(v).value) == Ok(v)
  {
    hide Position2DToJson, Position2DFromJson, Put, PutOptional, Get, At, OptionalAt, EncodeEach, DecodeEach, SeqFromJson, FixedFromJson, IntegerOf, U8FromJson, U16FromJson, U32FromJson, U64FromJson, EnumFromJson, FloatFromJson, BoolFromJson, StringFromJson;
    Position2DRoundTrip(v.start);
    Position2DRoundTrip(v.end);
    if AreaShapeWideLineToJson(v).Ok? {
      AreaShapeWideLineFields(v);
      var j := AreaShapeWideLineToJson(v).value;
      hide AreaShapeWideLineToJson;
      assert FloatFromJson(Float(v.width)) == Ok(v.width);
      assert GetAreaShapeWideLine(j) == Ok(v);
    }
  }

  // AreaShape
  datatype AreaShape =
    | Invalid
    | Circle(circle: AreaShapeCircle)
    | Cone(cone: AreaShapeCone)
    | ConeCut(coneCut: AreaShapeConeCut)
    | WideLine(wideLine: AreaShapeWideLine)

  /** The labels `from_json` tests, in order. */
  const AreaShapeLabels: seq<string> := ["Circle", "Cone", "ConeCut", "WideLine"]

  /** The position of the case in the `std::variant`; 0 is `Invalid`. */
  function AreaShapeIndex(v: AreaShape): nat
  {
    match v
    case Invalid => 0
    case Circle(_) => 1
    case Cone(_) => 2
    case ConeCut(_) => 3
    case WideLine(_) => 4
  }

  predicate AreaShapeEncodable(v: AreaShape)
  {
    match v
    case Invalid => false
    case Circle(_) => true
    case Cone(_) => true
    case ConeCut(_) => true
    case WideLine(_) => true
  }

  /** The payload of the active case, as the union member holding it encodes. */
  function AreaShapePayloadToJson(v: AreaShape): Outcome<Json>
  {
    hide AreaShapeCircleToJson, AreaShapeConeToJson, AreaShapeConeCutToJson, AreaShapeWideLineToJson;
    match v
    case Invalid => Err(InvalidDefaultVariant)
    case Circle(p) => AreaShapeCircleToJson(p)
    case Cone(p) => AreaShapeConeToJson(p)
    case ConeCut(p) => AreaShapeConeCutToJson(p)
    case WideLine(p) => AreaShapeWideLineToJson(p)
  }

  function AreaShapeToJson(v: AreaShape): Outcome<Json>
  {
    hide AreaShapeCircleToJson, AreaShapeConeToJson, AreaShapeConeCutToJson, AreaShapeWideLineToJson;
    match v
    case Invalid => Err(InvalidDefaultVariant)
    case Circle(p) => var x :- AreaShapeCircleToJson(p); Ok(Obj([("Circle", x)]))
    case Cone(p) => var x :- AreaShapeConeToJson(p); Ok(Obj([("Cone", x)]))
    case ConeCut(p) => var x :- AreaShapeConeCutToJson(p); Ok(Obj([("ConeCut", x)]))
    case WideLine(p) => var x :- AreaShapeWideLineToJson(p); Ok(Obj([("WideLine", x)]))
  }

  /** `value.get<Payload>()` for case `index` of `AreaShapeLabels`. */
  function AreaShapeCase(index: nat, payload: Json): Outcome<AreaShape>
    requires 1 <= index <= |AreaShapeLabels|
  {
    hide AreaShapeCircleFromJson, AreaShapeConeFromJson, AreaShapeConeCutFromJson, AreaShapeWideLineFromJson;
    match index
    case 1 => var x :- GetAreaShapeCircle(payload); Ok(AreaShape.Circle(x))
    case 2 => var x :- GetAreaShapeCone(payload); Ok(AreaShape.Cone(x))
    case 3 => var x :- GetAreaShapeConeCut(payload); Ok(AreaShape.ConeCut(x))
    case _ => var x :- GetAreaShapeWideLine(payload); Ok(AreaShape.WideLine(x))
  }

  function AreaShapeFromJson(j: Json, prior: AreaShape): Outcome<AreaShape>
  {
    match Select(AreaShapeLabels, j)
    case NoItems => Err(InvalidJson)
    case Unlabelled => Ok(prior)
    case Selected(index, payload) => AreaShapeCase(index, payload)
  }

  function GetAreaShape(j: Json): Outcome<AreaShape>
  {
    AreaShapeFromJson(j, AreaShape.Invalid)
  }

  /** No label of `AreaShapeLabels` occurs twice. */
  lemma AreaShapeLabelsDistinct()
    ensures Distinct(AreaShapeLabels)
  {
  }

  lemma AreaShapeRoundTrip(v: AreaShape, prior: AreaShape)
    ensures hide *; AreaShapeToJson(v).Ok? <==> AreaShapeEncodable(v)
    ensures hide *; AreaShapeEncodable(v) ==> AreaShapeFromJson(AreaShapeToJson(v).value, prior) == Ok(v)
  {
    AreaShapeLabelsDistinct();
    hide AreaShapeCircleToJson, AreaShapeCircleFromJson, AreaShapeConeToJson, AreaShapeConeFromJson, AreaShapeConeCutToJson, AreaShapeConeCutFromJson, AreaShapeWideLineToJson, AreaShapeWideLineFromJson, Select, Items, LastIndexOf, Distinct;
    match v
    case Invalid =>
    case Circle(p) =>
      AreaShapeCircleRoundTrip(p);
      if AreaShapeCircleToJson(p).Ok? {
        SelectEncoded(AreaShapeLabels, 1, AreaShapeCircleToJson(p).value);
      }
    case Cone(p) =>
      AreaShapeConeRoundTrip(p);
      if AreaShapeConeToJson(p).Ok? {
        SelectEncoded(AreaShapeLabels, 2, AreaShapeConeToJson(p).value);
      }
    case ConeCut(p) =>
      AreaShapeConeCutRoundTrip(p);
      if AreaShapeConeCutToJson(p).Ok? {
        SelectEncoded(AreaShapeLabels, 3, AreaShapeConeCutToJson(p).value);
      }
    case WideLine(p) =>
      AreaShapeWideLineRoundTrip(p);
      if AreaShapeWideLineToJson(p).Ok? {
        SelectEncoded(AreaShapeLabels, 4, AreaShapeWideLineToJson(p).value);
      }
  }

  // AbilityEffectSpecificDamageArea
  datatype AbilityEffectSpecificDamageArea = AbilityEffectSpecificDamageArea(progressCurrent: real, progressDelta: real, damageRemaining: real, shape: AreaShape)

  const DefaultAbilityEffectSpecificDamageArea: AbilityEffectSpecificDamageArea := AbilityEffectSpecificDamageArea(0.0, 0.0, 0.0, AreaShape.Invalid)

  predicate AbilityEffectSpecificDamageAreaEncodable(v: AbilityEffectSpecificDamageArea)
  {
    hide AreaShapeEncodable;
    AreaShapeEncodable(v.shape)
  }

  function AbilityEffectSpecificDamageAreaToJson(v: AbilityEffectSpecificDamageArea): Outcome<Json>
  {
    hide AreaShapeToJson;
    var j1 := Put(Null, "progress_current", Float(v.progressCurrent));
    var j2 := Put(j1, "progress_delta", Float(v.progressDelta));
    var j3 := Put(j2, "damage_remaining", Float(v.damageRemaining));
    var shapeJson :- AreaShapeToJson(v.shape);
    var j4 := Put(j3, "shape", shapeJson);
    Ok(j4)
  }

  function AbilityEffectSpecificDamageAreaFromJson(j: Json, prior: AbilityEffectSpecificDamageArea): Outcome<AbilityEffectSpecificDamageArea>
  {
    hide AreaShapeFromJson;
    var progressCurrentJson :- At(j, "progress_current");
    var progressCurrent :- FloatFromJson(progressCurrentJson);
    var progressDeltaJson :- At(j, "progress_delta");
    var progressDelta :- FloatFromJson(progressDeltaJson);
    var damageRemainingJson :- At(j, "damage_remaining");
    var damageRemaining :- FloatFromJson(damageRemainingJson);
    var shapeJson :- At(j, "shape");
    var shape :- AreaShapeFromJson(shapeJson, prior.shape);
    Ok(AbilityEffectSpecificDamageArea(progressCurrent, progressDelta, damageRemaining, shape))
  }

  function GetAbilityEffectSpecificDamageArea(j: Json): Outcome<AbilityEffectSpecificDamageArea>
  {
    AbilityEffectSpecificDamageAreaFromJson(j, DefaultAbilityEffectSpecificDamageArea)
  }

  /** Each key of the encoded object holds its field, as written. */
  lemma AbilityEffectSpecificDamageAreaFields(v: AbilityEffectSpecificDamageArea)
    requires AbilityEffectSpecificDamageAreaToJson(v).Ok?
    ensures hide *; var j := AbilityEffectSpecificDamageAreaToJson(v).value;
      && j.Obj?
      && At(j, "progress_current") == Ok(Float(v.progressCurrent))
      && At(j, "progress_delta") == Ok(Float(v.progressDelta))
      && At(j, "damage_remaining") == Ok(Float(v.damageRemaining))
      && AreaShapeToJson(v.shape).Ok?
      && At(j, "shape") == Ok(AreaShapeToJson(v.shape).value)
  {
    hide AreaShapeToJson, Put, PutOptional, Get, At, OptionalAt, SeqToJson, IntegerOf;
  }

  lemma AbilityEffectSpecificDamageAreaRoundTrip(v: AbilityEffectSpecificDamageArea)
    ensures hide *; AbilityEffectSpecificDamageAreaToJson(v).Ok? <==> AbilityEffectSpecificDamageAreaEncodable(v)
    ensures hide *; AbilityEffectSpecificDamageAreaToJson(v).Ok? ==> AbilityEffectSpecificDamageAreaToJson(v).value.Obj?
    ensures hide *; AbilityEffectSpecificDamageAreaEncodable(v) ==> GetAbilityEffectSpecificDamageArea(AbilityEffectSpecificDamageAreaToJson(v).value) == Ok(v)
  {
    hide AreaShapeToJson, AreaShapeFromJson, AreaShapeEncodable, Put, PutOptional, Get, At, OptionalAt, EncodeEach, DecodeEach, SeqFromJson, FixedFromJson, IntegerOf, U8FromJson, U16FromJson, U32FromJson, U64FromJson, EnumFromJson, FloatFromJson, BoolFromJson, StringFromJson;
    AreaShapeRoundTrip(v.shape, AreaShape.Invalid);
    if AbilityEffectSpecificDamageAreaToJson(v).Ok? && AbilityEffectSpecificDamageAreaEncodable(v) {
      AbilityEffectSpecificDamageAreaFields(v);
      var j := AbilityEffectSpecificDamageAreaToJson(v).value;
      hide AbilityEffectSpecificDamageAreaToJson;
      assert FloatFromJson(Float(v.progressCurrent)) == Ok(v.progressCurrent);
      assert FloatFromJson(Float(v.progressDelta)) == Ok(v.progressDelta);
      assert FloatFromJson(Float(v.damageRemaining)) == Ok(v.damageRemaining);
      assert GetAbilityEffectSpecificDamageArea(j) == Ok(v);
    }
  }

  // AbilityEffectSpecificDamageOverTime
  datatype AbilityEffectSpecificDamageOverTime = AbilityEffectSpecificDamageOverTime(tickWaitDuration: TickCount, ticksLeft: TickCount, tickDamage: real)

  const DefaultAbilityEffectSpecificDamageOverTime: AbilityEffectSpecificDamageOverTime := AbilityEffectSpecificDamageOverTime(0, 0, 0.0)

  function AbilityEffectSpecificDamageOverTimeToJson(v: AbilityEffectSpecificDamageOverTime): Outcome<Json>
  {
    var j1 := Put(Null, "tick_wait_duration", Int(v.tickWaitDuration));
    var j2 := Put(j1, "ticks_left", Int(v.ticksLeft));
    var j3 := Put(j2, "tick_damage", Float(v.tickDamage));
    Ok(j3)
  }

  function AbilityEffectSpecificDamageOverTimeFromJson(j: Json, prior: AbilityEffectSpecificDamageOverTime): Outcome<AbilityEffectSpecificDamageOverTime>
  {
    var tickWaitDurationJson :- At(j, "tick_wait_duration");
    var tickWaitDuration :- U32FromJson(tickWaitDurationJson);
    var ticksLeftJson :- At(j, "ticks_left");
    var ticksLeft :- U32FromJson(ticksLeftJson);
    var tickDamageJson :- At(j, "tick_damage");
    var tickDamage :- FloatFromJson(tickDamageJson);
    Ok(AbilityEffectSpecificDamageOverTime(tickWaitDuration, ticksLeft, tickDamage))
  }

  function GetAbilityEffectSpecificDamageOverTime(j: Json): Outcome<AbilityEffectSpecificDamageOverTime>
  {
    AbilityEffectSpecificDamageOverTimeFromJson(j, DefaultAbilityEffectSpecificDamageOverTime)
  }

  /** Each key of the encoded object holds its field, as written. */
  lemma AbilityEffectSpecificDamageOverTimeFields(v: AbilityEffectSpecificDamageOverTime)
    requires AbilityEffectSpecificDamageOverTimeToJson(v).Ok?
    ensures var j := AbilityEffectSpecificDamageOverTimeToJson(v).value;
      && j.Obj?
      && At(j, "tick_wait_duration") == Ok(Int(v.tickWaitDuration))
      && At(j, "ticks_left") == Ok(Int(v.ticksLeft))
      && At(j, "tick_damage") == Ok(Float(v.tickDamage))
  {
    hide Put, PutOptional, Get, At, OptionalAt, SeqToJson, IntegerOf;
  }

  lemma AbilityEffectSpecificDamageOverTimeRoundTrip(v: AbilityEffectSpecificDamageOverTime)
    ensures AbilityEffectSpecificDamageOverTimeToJson(v).Ok? && AbilityEffectSpecificDamageOverTimeToJson(v).value.Obj?
    ensures GetAbilityEffectSpecificDamageOverTime(AbilityEffectSpecificDamageOverTimeToJson(v).value) == Ok(v)
  {
    hide Put, PutOptional, Get, At, OptionalAt, EncodeEach, DecodeEach, SeqFromJson, FixedFromJson, IntegerOf, U8FromJson, U16FromJson, U32FromJson, U64FromJson, EnumFromJson, FloatFromJson, BoolFromJson, StringFromJson;
    if AbilityEffectSpecificDamageOverTimeToJson(v).Ok? {
      AbilityEffectSpecificDamageOverTimeFields(v);
      var j := AbilityEffectSpecificDamageOverTimeToJson(v).value;
      hide AbilityEffectSpecificDamageOverTimeToJson;
      assert U32FromJson(Int(v.tickWaitDuration)) == Ok(v.tickWaitDuration);
      assert U32FromJson(Int(v.ticksLeft)) == Ok(v.ticksLeft);
      assert FloatFromJson(Float(v.tickDamage)) == Ok(v.tickDamage);
      assert GetAbilityEffectSpecificDamageOverTime(j) == Ok(v);
    }
  }

  // AbilityEffectSpecificLinkedFire
  datatype AbilityEffectSpecificLinkedFire = AbilityEffectSpecificLinkedFire(linked: bool, fighting: bool, fastCast: u32, supportCap: u16, supportProduction: u8)

  const DefaultAbilityEffectSpecificLinkedFire: AbilityEffectSpecificLinkedFire := AbilityEffectSpecificLinkedFire(false, false, 0, 0, 0)

  function AbilityEffectSpecificLinkedFireToJson(v: AbilityEffectSpecificLinkedFire): Outcome<Json>
  {
    var j1 := Put(Null, "linked", Bool(v.linked));
    var j2 := Put(j1, "fighting", Bool(v.fighting));
    var j3 := Put(j2, "fast_cast", Int(v.fastCast));
    var j4 := Put(j3, "support_cap", Int(v.supportCap));
    var j5 := Put(j4, "support_production", Int(v.supportProduction));
    Ok(j5)
  }

  function AbilityEffectSpecificLinkedFireFromJson(j: Json, prior: AbilityEffectSpecificLinkedFire): Outcome<AbilityEffectSpecificLinkedFire>
  {
    var linkedJson :- At(j, "linked");
    var linked :- BoolFromJson(linkedJson);
    var fightingJson :- At(j, "fighting");
    var fighting :- BoolFromJson(fightingJson);
    var fastCastJson :- At(j, "fast_cast");
    var fastCast :- U32FromJson(fastCastJson);
    var supportCapJson :- At(j, "support_cap");
    var supportCap :- U16FromJson(supportCapJson);
    var supportProductionJson :- At(j, "support_production");
    var supportProduction :- U8FromJson(supportProductionJson);
    Ok(AbilityEffectSpecificLinkedFire(linked, fighting, fastCast, supportCap, supportProduction))
  }

  function GetAbilityEffectSpecificLinkedFire(j: Json): Outcome<AbilityEffectSpecificLinkedFire>
  {
    AbilityEffectSpecificLinkedFireFromJson(j, DefaultAbilityEffectSpecificLinkedFire)
  }

  /** Each key of the encoded object holds its field, as written. */
  lemma AbilityEffectSpecificLinkedFireFields(v: AbilityEffectSpecificLinkedFire)
    requires AbilityEffectSpecificLinkedFireToJson(v).Ok?
    ensures var j := AbilityEffectSpecificLinkedFireToJson(v).value;
      && j.Obj?
      && At(j, "linked") == Ok(Bool(v.linked))
      && At(j, "fighting") == Ok(Bool(v.fighting))
      && At(j, "fast_cast") == Ok(Int(v.fastCast))
      && At(j, "support_cap") == Ok(Int(v.supportCap))
      && At(j, "support_production") == Ok(Int(v.supportProduction))
  {
    hide Put, PutOptional, Get, At, OptionalAt, SeqToJson, IntegerOf;
  }

  lemma AbilityEffectSpecificLinkedFireRoundTrip(v: AbilityEffectSpecificLinkedFire)
    ensures AbilityEffectSpecificLinkedFireToJson(v).Ok? && AbilityEffectSpecificLinkedFireToJson(v).value.Obj?
    ensures GetAbilityEffectSpecificLinkedFire(AbilityEffectSpecificLinkedFireToJson(v).value) == Ok(v)
  {
    hide Put, PutOptional, Get, At, OptionalAt, EncodeEach, DecodeEach, SeqFromJson, FixedFromJson, IntegerOf, U8FromJson, U16FromJson, U32FromJson, U64FromJson, EnumFromJson, FloatFromJson, BoolFromJson, StringFromJson;
    if AbilityEffectSpecificLinkedFireToJson(v).Ok? {
      AbilityEffectSpecificLinkedFireFields(v);
      var j := AbilityEffectSpecificLinkedFireToJson(v).value;
      hide AbilityEffectSpecificLinkedFireToJson;
      assert BoolFromJson(Bool(v.linked)) == Ok(v.linked);
      assert BoolFromJson(Bool(v.fighting)) == Ok(v.fighting);
      assert U32FromJson(Int(v.fastCast)) == Ok(v.fastCast);
      assert U16FromJson(Int(v.supportCap)) == Ok(v.supportCap);
      assert U8FromJson(Int(v.supportProduction)) == Ok(v.supportProduction);
      assert GetAbilityEffectSpecificLinkedFire(j) == Ok(v);
    }
  }

  // AbilityEffectSpecificSpellOnEntityNearby
  datatype AbilityEffectSpecificSpellOnEntityNearby = AbilityEffectSpecificSpellOnEntityNearby(spellOnOwner: seq<SpellId>, spellOnSource: seq<SpellId>, radius: real, remainingTargets: u32)

  const DefaultAbilityEffectSpecificSpellOnEntityNearby: AbilityEffectSpecificSpellOnEntityNearby := AbilityEffectSpecificSpellOnEntityNearby([], [], 0.0, 0)

  function AbilityEffectSpecificSpellOnEntityNearbyToJson(v: AbilityEffectSpecificSpellOnEntityNearby): Outcome<Json>
  {
    var spellOnOwnerJson :- SeqToJson(v.spellOnOwner, U32ToJson);
    var j1 := Put(Null, "spell_on_owner", spellOnOwnerJson);
    var spellOnSourceJson :- SeqToJson(v.spellOnSource, U32ToJson);
    var j2 := Put(j1, "spell_on_source", spellOnSourceJson);
    var j3 := Put(j2, "radius", Float(v.radius));
    var j4 := Put(j3, "remaining_targets", Int(v.remainingTargets));
    Ok(j4)
  }

  function AbilityEffectSpecificSpellOnEntityNearbyFromJson(j: Json, prior: AbilityEffectSpecificSpellOnEntityNearby): Outcome<AbilityEffectSpecificSpellOnEntityNearby>
  {
    var spellOnOwnerJson :- At(j, "spell_on_owner");
    var spellOnOwner :- SeqFromJson(spellOnOwnerJson, U32FromJson);
    var spellOnSourceJson :- At(j, "spell_on_source");
    var spellOnSource :- SeqFromJson(spellOnSourceJson, U32FromJson);
    var radiusJson :- At(j, "radius");
    var radius :- FloatFromJson(radiusJson);
    var remainingTargetsJson :- At(j, "remaining_targets");
    var remainingTargets :- U32FromJson(remainingTargetsJson);
    Ok(AbilityEffectSpecificSpellOnEntityNearby(spellOnOwner, spellOnSource, radius, remainingTargets))
  }

  function GetAbilityEffectSpecificSpellOnEntityNearby(j: Json): Outcome<AbilityEffectSpecificSpellOnEntityNearby>
  {
    AbilityEffectSpecificSpellOnEntityNearbyFromJson(j, DefaultAbilityEffectSpecificSpellOnEntityNearby)
  }

  /** Each key of the encoded object holds its field, as written. */
  lemma AbilityEffectSpecificSpellOnEntityNearbyFields(v: AbilityEffectSpecificSpellOnEntityNearby)
    requires AbilityEffectSpecificSpellOnEntityNearbyToJson(v).Ok?
    ensures var j := AbilityEffectSpecificSpellOnEntityNearbyToJson(v).value;
      && j.Obj?
      && SeqToJson(v.spellOnOwner, U32ToJson).Ok?
      && At(j, "spell_on_owner") == Ok(SeqToJson(v.spellOnOwner, U32ToJson).value)
      && SeqToJson(v.spellOnSource, U32ToJson).Ok?
      && At(j, "spell_on_source") == Ok(SeqToJson(v.spellOnSource, U32ToJson).value)
      && At(j, "radius") == Ok(Float(v.radius))
      && At(j, "remaining_targets") == Ok(Int(v.remainingTargets))
  {
    hide Put, PutOptional, Get, At, OptionalAt, SeqToJson, IntegerOf;
  }

  lemma AbilityEffectSpecificSpellOnEntityNearbyRoundTrip(v: AbilityEffectSpecificSpellOnEntityNearby)
    ensures AbilityEffectSpecificSpellOnEntityNearbyToJson(v).Ok? && AbilityEffectSpecificSpellOnEntityNearbyToJson(v).value.Obj?
    ensures GetAbilityEffectSpecificSpellOnEntityNearby(AbilityEffectSpecificSpellOnEntityNearbyToJson(v).value) == Ok(v)
  {
    hide Put, PutOptional, Get, At, OptionalAt, EncodeEach, DecodeEach, SeqFromJson, FixedFromJson, IntegerOf, U8FromJson, U16FromJson, U32FromJson, U64FromJson, EnumFromJson, FloatFromJson, BoolFromJson, StringFromJson;
    SeqRoundTrip(v.spellOnOwner, U32ToJson, U32FromJson);
    SeqRoundTrip(v.spellOnSource, U32ToJson, U32FromJson);
    if AbilityEffectSpecificSpellOnEntityNearbyToJson(v).Ok? {
      AbilityEffectSpecificSpellOnEntityNearbyFields(v);
      var j := AbilityEffectSpecificSpellOnEntityNearbyToJson(v).value;
      hide AbilityEffectSpecificSpellOnEntityNearbyToJson;
      assert FloatFromJson(Float(v.radius)) == Ok(v.radius);
      assert U32FromJson(Int(v.remainingTargets)) == Ok(v.remainingTargets);
      assert GetAbilityEffectSpecificSpellOnEntityNearby(j) == Ok(v);
    }
  }

  // AbilityEffectSpecificTimedSpell
  datatype AbilityEffectSpecificTimedSpell = AbilityEffectSpecificTimedSpell(spellsToCast: seq<SpellId>)

  const DefaultAbilityEffectSpecificTimedSpell: AbilityEffectSpecificTimedSpell := AbilityEffectSpecificTimedSpell([])

  function AbilityEffectSpecificTimedSpellToJson(v: AbilityEffectSpecificTimedSpell): Outcome<Json>
  {
    var spellsToCastJson :- SeqToJson(v.spellsToCast, U32ToJson);
    var j1 := Put(Null, "spells_to_cast", spellsToCastJson);
    Ok(j1)
  }

  function AbilityEffectSpecificTimedSpellFromJson(j: Json, prior: AbilityEffectSpecificTimedSpell): Outcome<AbilityEffectSpecificTimedSpell>
  {
    var spellsToCastJson :- At(j, "spells_to_cast");
    var spellsToCast :- SeqFromJson(spellsToCastJson, U32FromJson);
    Ok(AbilityEffectSpecificTimedSpell(spellsToCast))
  }

  function GetAbilityEffectSpecificTimedSpell(j: Json): Outcome<AbilityEffectSpecificTimedSpell>
  {
    AbilityEffectSpecificTimedSpellFromJson(j, DefaultAbilityEffectSpecificTimedSpell)
  }

  lemma AbilityEffectSpecificTimedSpellRoundTrip(v: AbilityEffectSpecificTimedSpell)
    ensures AbilityEffectSpecificTimedSpellToJson(v).Ok? && AbilityEffectSpecificTimedSpellToJson(v).value.Obj?
    ensures GetAbilityEffectSpecificTimedSpell(AbilityEffectSpecificTimedSpellToJson(v).value) == Ok(v)
  {
    hide Put, PutOptional, Get, At, OptionalAt, EncodeEach, DecodeEach, SeqFromJson, FixedFromJson, IntegerOf, U8FromJson, U16FromJson, U32FromJson, U64FromJson, EnumFromJson, FloatFromJson, BoolFromJson, StringFromJson;
    SeqRoundTrip(v.spellsToCast, U32ToJson, U32FromJson);
  }

  // AbilityEffectSpecificCollector
  datatype AbilityEffectSpecificCollector = AbilityEffectSpecificCollector(spellToCast: SpellId, radius: real)

  const DefaultAbilityEffectSpecificCollector: AbilityEffectSpecificCollector := AbilityEffectSpecificCollector(0, 0.0)

  function AbilityEffectSpecificCollectorToJson(v: AbilityEffectSpecificCollector): Outcome<Json>
  {
    var j1 := Put(Null, "spell_to_cast", Int(v.spellToCast));
    var j2 := Put(j1, "radius", Float(v.radius));
    Ok(j2)
  }

  function AbilityEffectSpecificCollectorFromJson(j: Json, prior: AbilityEffectSpecificCollector): Outcome<AbilityEffectSpecificCollector>
  {
    var spellToCastJson :- At(j, "spell_to_cast");
    var spellToCast :- U32FromJson(spellToCastJson);
    var radiusJson :- At(j, "radius");
    var radius :- FloatFromJson(radiusJson);
    Ok(AbilityEffectSpecificCollector(spellToCast, radius))
  }

  function GetAbilityEffectSpecificCollector(j: Json): Outcome<AbilityEffectSpecificCollector>
  {
    AbilityEffectSpecificCollectorFromJson(j, DefaultAbilityEffectSpecificCollector)
  }

  lemma AbilityEffectSpecificCollectorRoundTrip(v: AbilityEffectSpecificCollector)
    ensures AbilityEffectSpecificCollectorToJson(v).Ok? && AbilityEffectSpecificCollectorToJson(v).value.Obj?
    ensures GetAbilityEffectSpecificCollector(AbilityEffectSpecificCollectorToJson(v).value) == Ok(v)
  {
    hide Put, PutOptional, Get, At, OptionalAt, EncodeEach, DecodeEach, SeqFromJson, FixedFromJson, IntegerOf, U8FromJson, U16FromJson, U32FromJson, U64FromJson, EnumFromJson, FloatFromJson, BoolFromJson, StringFromJson;
  }

  // AbilityEffectSpecificAura
  datatype AbilityEffectSpecificAura = AbilityEffectSpecificAura(spellsToApply: seq<SpellId>, abilitiesToApply: seq<AbilityId>, radius: real)

  const DefaultAbilityEffectSpecificAura: AbilityEffectSpecificAura := AbilityEffectSpecificAura([], [], 0.0)

  function AbilityEffectSpecificAuraToJson(v: AbilityEffectSpecificAura): Outcome<Json>
  {
    var spellsToApplyJson :- SeqToJson(v.spellsToApply, U32ToJson);
    var j1 := Put(Null, "spells_to_apply", spellsToApplyJson);
    var abilitiesToApplyJson :- SeqToJson(v.abilitiesToApply, U32ToJson);
    var j2 := Put(j1, "abilities_to_apply", abilitiesToApplyJson);
    var j3 := Put(j2, "radius", Float(v.radius));
    Ok(j3)
  }

  function AbilityEffectSpecificAuraFromJson(j: Json, prior: AbilityEffectSpecificAura): Outcome<AbilityEffectSpecificAura>
  {
    var spellsToApplyJson :- At(j, "spells_to_apply");
    var spellsToApply :- SeqFromJson(spellsToApplyJson, U32FromJson);
    var abilitiesToApplyJson :- At(j, "abilities_to_apply");
    var abilitiesToApply :- SeqFromJson(abilitiesToApplyJson, U32FromJson);
    var radiusJson :- At(j, "radius");
    var radius :- FloatFromJson(radiusJson);
    Ok(AbilityEffectSpecificAura(spellsToApply, abilitiesToApply, radius))
  }

  function GetAbilityEffectSpecificAura(j: Json): Outcome<AbilityEffectSpecificAura>
  {
    AbilityEffectSpecificAuraFromJson(j, DefaultAbilityEffectSpecificAura)
  }

  /** Each key of the encoded object holds its field, as written. */
  lemma AbilityEffectSpecificAuraFields(v: AbilityEffectSpecificAura)
    requires AbilityEffectSpecificAuraToJson(v).Ok?
    ensures var j := AbilityEffectSpecificAuraToJson(v).value;
      && j.Obj?
      && SeqToJson(v.spellsToApply, U32ToJson).Ok?
      && At(j, "spells_to_apply") == Ok(SeqToJson(v.spellsToApply, U32ToJson).value)
      && SeqToJson(v.abilitiesToApply, U32ToJson).Ok?
      && At(j, "abilities_to_apply") == Ok(SeqToJson(v.abilitiesToApply, U32ToJson).value)
      && At(j, "radius") == Ok(Float(v.radius))
  {
    hide Put, PutOptional, Get, At, OptionalAt, SeqToJson, IntegerOf;
  }

  lemma AbilityEffectSpecificAuraRoundTrip(v: AbilityEffectSpecificAura)
    ensures AbilityEffectSpecificAuraToJson(v).Ok? && AbilityEffectSpecificAuraToJson(v).value.Obj?
    ensures GetAbilityEffectSpecificAura(AbilityEffectSpecificAuraToJson(v).value) == Ok(v)
  {
    hide Put, PutOptional, Get, At, OptionalAt, EncodeEach, DecodeEach, SeqFromJson, FixedFromJson, IntegerOf, U8FromJson, U16FromJson, U32FromJson, U64FromJson, EnumFromJson, FloatFromJson, BoolFromJson, StringFromJson;
    SeqRoundTrip(v.spellsToApply, U32ToJson, U32FromJson);
    SeqRoundTrip(v.abilitiesToApply, U32ToJson, U32FromJson);
    if AbilityEffectSpecificAuraToJson(v).Ok? {
      AbilityEffectSpecificAuraFields(v);
      var j := AbilityEffectSpecificAuraToJson(v).value;
      hide AbilityEffectSpecificAuraToJson;
      assert FloatFromJson(Float(v.radius)) == Ok(v.radius);
      assert GetAbilityEffectSpecificAura(j) == Ok(v);
    }
  }

  // AbilityEffectSpecificMovingIntervalCast
  datatype AbilityEffectSpecificMovingIntervalCast = AbilityEffectSpecificMovingIntervalCast(spellToCast: seq<SpellId>, directionStep: Position2D, castEveryNthTick: TickCount)

  const DefaultAbilityEffectSpecificMovingIntervalCast: AbilityEffectSpecificMovingIntervalCast := AbilityEffectSpecificMovingIntervalCast([], DefaultPosition2D, 0)

  function AbilityEffectSpecificMovingIntervalCastToJson(v: AbilityEffectSpecificMovingIntervalCast): Outcome<Json>
  {
    hide Position2DToJson;
    var spellToCastJson :- SeqToJson(v.spellToCast, U32ToJson);
    var j1 := Put(Null, "spell_to_cast", spellToCastJson);
    var directionStepJson :- Position2DToJson(v.directionStep);
    var j2 := Put(j1, "direction_step", directionStepJson);
    var j3 := Put(j2, "cast_every_nth_tick", Int(v.castEveryNthTick));
    Ok(j3)
  }

  function AbilityEffectSpecificMovingIntervalCastFromJson(j: Json, prior: AbilityEffectSpecificMovingIntervalCast): Outcome<AbilityEffectSpecificMovingIntervalCast>
  {
    hide Position2DFromJson;
    var spellToCastJson :- At(j, "spell_to_cast");
    var spellToCast :- SeqFromJson(spellToCastJson, U32FromJson);
    var directionStepJson :- At(j, "direction_step");
    var directionStep :- Position2DFromJson(directionStepJson, prior.directionStep);
    var castEveryNthTickJson :- At(j, "cast_every_nth_tick");
    var castEveryNthTick :- U32FromJson(castEveryNthTickJson);
    Ok(AbilityEffectSpecificMovingIntervalCast(spellToCast, directionStep, castEveryNthTick))
  }

  function GetAbilityEffectSpecificMovingIntervalCast(j: Json): Outcome<AbilityEffectSpecificMovingIntervalCast>
  {
    AbilityEffectSpecificMovingIntervalCastFromJson(j, DefaultAbilityEffectSpecificMovingIntervalCast)
  }

  /** Each key of the encoded object holds its field, as written. */
  lemma AbilityEffectSpecificMovingIntervalCastFields(v: AbilityEffectSpecificMovingIntervalCast)
    requires AbilityEffectSpecificMovingIntervalCastToJson(v).Ok?
    ensures hide *; var j := AbilityEffectSpecificMovingIntervalCastToJson(v).value;
      && j.Obj?
      && SeqToJson(v.spellToCast, U32ToJson).Ok?
      && At(j, "spell_to_cast") == Ok(SeqToJson(v.spellToCast, U32ToJson).value)
      && Position2DToJson(v.directionStep).Ok?
      && At(j, "direction_step") == Ok(Position2DToJson(v.directionStep).value)
      && At(j, "cast_every_nth_tick") == Ok(Int(v.castEveryNthTick))
  {
    hide Position2DToJson, Put, PutOptional, Get, At, OptionalAt, SeqToJson, IntegerOf;
  }

  lemma AbilityEffectSpecificMovingIntervalCastRoundTrip(v: AbilityEffectSpecificMovingIntervalCast)
    ensures hide *; AbilityEffectSpecificMovingIntervalCastToJson(v).Ok? && AbilityEffectSpecificMovingIntervalCastToJson(v).value.Obj?
    ensures hide *; GetAbilityEffectSpecificMovingIntervalCast(AbilityEffectSpecificMovingIntervalCastToJson(v).value) == Ok(v)
  {
    hide Position2DToJson, Position2DFromJson, Put, PutOptional, Get, At, OptionalAt, EncodeEach, DecodeEach, SeqFromJson, FixedFromJson, IntegerOf, U8FromJson, U16FromJson, U32FromJson, U64FromJson, EnumFromJson, FloatFromJson, BoolFromJson, StringFromJson;
    SeqRoundTrip(v.spellToCast, U32ToJson, U32FromJson);
    Position2DRoundTrip(v.directionStep);
    if AbilityEffectSpecificMovingIntervalCastToJson(v).Ok? {
      AbilityEffectSpecificMovingIntervalCastFields(v);
      var j := AbilityEffectSpecificMovingIntervalCastToJson(v).value;
      hide AbilityEffectSpecificMovingIntervalCastToJson;
      assert U32FromJson(Int(v.castEveryNthTick)) == Ok(v.castEveryNthTick);
      assert GetAbilityEffectSpecificMovingIntervalCast(j) == Ok(v);
    }
  }

  // AbilityEffectSpecific
  datatype AbilityEffectSpecific =
    | Invalid
    | DamageArea(damageArea: AbilityEffectSpecificDamageArea)
    | DamageOverTime(damageOverTime: AbilityEffectSpecificDamageOverTime)
    | LinkedFire(linkedFire: AbilityEffectSpecificLinkedFire)
    | SpellOnEntityNearby(spellOnEntityNearby: AbilityEffectSpecificSpellOnEntityNearby)
    | TimedSpell(timedSpell: AbilityEffectSpecificTimedSpell)
    | Collector(collector: AbilityEffectSpecificCollector)
    | Aura(aura: AbilityEffectSpecificAura)
    | MovingIntervalCast(movingIntervalCast: AbilityEffectSpecificMovingIntervalCast)
    | Other

  /** The labels `from_json` tests, in order. */
  const AbilityEffectSpecificLabels: seq<string> := ["DamageArea", "DamageOverTime", "LinkedFire", "SpellOnEntityNearby", "TimedSpell", "Collector", "Aura", "MovingIntervalCast", "Other"]

  /** The position of the case in the `std::variant`; 0 is `Invalid`. */
  function AbilityEffectSpecificIndex(v: AbilityEffectSpecific): nat
  {
    match v
    case Invalid => 0
    case DamageArea(_) => 1
    case DamageOverTime(_) => 2
    case LinkedFire(_) => 3
    case SpellOnEntityNearby(_) => 4
    case TimedSpell(_) => 5
    case Collector(_) => 6
    case Aura(_) => 7
    case MovingIntervalCast(_) => 8
    case Other => 9
  }

  predicate AbilityEffectSpecificEncodable(v: AbilityEffectSpecific)
  {
    hide AbilityEffectSpecificDamageAreaEncodable;
    match v
    case Invalid => false
    case DamageArea(p) => AbilityEffectSpecificDamageAreaEncodable(p)
    case DamageOverTime(_) => true
    case LinkedFire(_) => true
    case SpellOnEntityNearby(_) => true
    case TimedSpell(_) => true
    case Collector(_) => true
    case Aura(_) => true
    case MovingIntervalCast(_) => true
    case Other => true
  }

  /** The payload of the active case, as the union member holding it encodes. */
  function AbilityEffectSpecificPayloadToJson(v: AbilityEffectSpecific): Outcome<Json>
  {
    hide AbilityEffectSpecificDamageAreaToJson, AbilityEffectSpecificDamageOverTimeToJson, AbilityEffectSpecificLinkedFireToJson, AbilityEffectSpecificSpellOnEntityNearbyToJson, AbilityEffectSpecificTimedSpellToJson, AbilityEffectSpecificCollectorToJson, AbilityEffectSpecificAuraToJson, AbilityEffectSpecificMovingIntervalCastToJson;
    match v
    case Invalid => Err(InvalidDefaultVariant)
    case DamageArea(p) => AbilityEffectSpecificDamageAreaToJson(p)
    case DamageOverTime(p) => AbilityEffectSpecificDamageOverTimeToJson(p)
    case LinkedFire(p) => AbilityEffectSpecificLinkedFireToJson(p)
    case SpellOnEntityNearby(p) => AbilityEffectSpecificSpellOnEntityNearbyToJson(p)
    case TimedSpell(p) => AbilityEffectSpecificTimedSpellToJson(p)
    case Collector(p) => AbilityEffectSpecificCollectorToJson(p)
    case Aura(p) => AbilityEffectSpecificAuraToJson(p)
    case MovingIntervalCast(p) => AbilityEffectSpecificMovingIntervalCastToJson(p)
    case Other => Ok(MarkerJson("AbilityEffectSpecificOther"))
  }

  function AbilityEffectSpecificToJson(v: AbilityEffectSpecific): Outcome<Json>
  {
    hide AbilityEffectSpecificDamageAreaToJson, AbilityEffectSpecificDamageOverTimeToJson, AbilityEffectSpecificLinkedFireToJson, AbilityEffectSpecificSpellOnEntityNearbyToJson, AbilityEffectSpecificTimedSpellToJson, AbilityEffectSpecificCollectorToJson, AbilityEffectSpecificAuraToJson, AbilityEffectSpecificMovingIntervalCastToJson;
    match v
    case Invalid => Err(InvalidDefaultVariant)
    case DamageArea(p) => var x :- AbilityEffectSpecificDamageAreaToJson(p); Ok(Obj([("DamageArea", x)]))
    case DamageOverTime(p) => var x :- AbilityEffectSpecificDamageOverTimeToJson(p); Ok(Obj([("DamageOverTime", x)]))
    case LinkedFire(p) => var x :- AbilityEffectSpecificLinkedFireToJson(p); Ok(Obj([("LinkedFire", x)]))
    case SpellOnEntityNearby(p) => var x :- AbilityEffectSpecificSpellOnEntityNearbyToJson(p); Ok(Obj([("SpellOnEntityNearby", x)]))
    case TimedSpell(p) => var x :- AbilityEffectSpecificTimedSpellToJson(p); Ok(Obj([("TimedSpell", x)]))
    case Collector(p) => var x :- AbilityEffectSpecificCollectorToJson(p); Ok(Obj([("Collector", x)]))
    case Aura(p) => var x :- AbilityEffectSpecificAuraToJson(p); Ok(Obj([("Aura", x)]))
    case MovingIntervalCast(p) => var x :- AbilityEffectSpecificMovingIntervalCastToJson(p); Ok(Obj([("MovingIntervalCast", x)]))
    case Other => Ok(Obj([("Other", MarkerJson("AbilityEffectSpecificOther"))]))
  }

  /** `value.get<Payload>()` for case `index` of `AbilityEffectSpecificLabels`. */
  function AbilityEffectSpecificCase(index: nat, payload: Json): Outcome<AbilityEffectSpecific>
    requires 1 <= index <= |AbilityEffectSpecificLabels|
  {
    hide AbilityEffectSpecificDamageAreaFromJson, AbilityEffectSpecificDamageOverTimeFromJson, AbilityEffectSpecificLinkedFireFromJson, AbilityEffectSpecificSpellOnEntityNearbyFromJson, AbilityEffectSpecificTimedSpellFromJson, AbilityEffectSpecificCollectorFromJson, AbilityEffectSpecificAuraFromJson, AbilityEffectSpecificMovingIntervalCastFromJson;
    match index
    case 1 => var x :- GetAbilityEffectSpecificDamageArea(payload); Ok(AbilityEffectSpecific.DamageArea(x))
    case 2 => var x :- GetAbilityEffectSpecificDamageOverTime(payload); Ok(AbilityEffectSpecific.DamageOverTime(x))
    case 3 => var x :- GetAbilityEffectSpecificLinkedFire(payload); Ok(AbilityEffectSpecific.LinkedFire(x))
    case 4 => var x :- GetAbilityEffectSpecificSpellOnEntityNearby(payload); Ok(AbilityEffectSpecific.SpellOnEntityNearby(x))
    case 5 => var x :- GetAbilityEffectSpecificTimedSpell(payload); Ok(AbilityEffectSpecific.TimedSpell(x))
    case 6 => var x :- GetAbilityEffectSpecificCollector(payload); Ok(AbilityEffectSpecific.Collector(x))
    case 7 => var x :- GetAbilityEffectSpecificAura(payload); Ok(AbilityEffectSpecific.Aura(x))
    case 8 => var x :- GetAbilityEffectSpecificMovingIntervalCast(payload); Ok(AbilityEffectSpecific.MovingIntervalCast(x))
    case _ => Ok(AbilityEffectSpecific.Other)
  }

  function AbilityEffectSpecificFromJson(j: Json, prior: AbilityEffectSpecific): Outcome<AbilityEffectSpecific>
  {
    match Select(AbilityEffectSpecificLabels, j)
    case NoItems => Err(InvalidJson)
    case Unlabelled => Ok(prior)
    case Selected(index, payload) => AbilityEffectSpecificCase(index, payload)
  }

  function GetAbilityEffectSpecific(j: Json): Outcome<AbilityEffectSpecific>
  {
    AbilityEffectSpecificFromJson(j, AbilityEffectSpecific.Invalid)
  }

  /** No label of `AbilityEffectSpecificLabels` occurs twice. */
  lemma AbilityEffectSpecificLabelsDistinct()
    ensures Distinct(AbilityEffectSpecificLabels)
  {
  }

  lemma AbilityEffectSpecificRoundTrip(v: AbilityEffectSpecific, prior: AbilityEffectSpecific)
    ensures hide *; AbilityEffectSpecificToJson(v).Ok? <==> AbilityEffectSpecificEncodable(v)
    ensures hide *; AbilityEffectSpecificEncodable(v) ==> AbilityEffectSpecificFromJson(AbilityEffectSpecificToJson(v).value, prior) == Ok(v)
  {
    AbilityEffectSpecificLabelsDistinct();
    hide AbilityEffectSpecificDamageAreaToJson, AbilityEffectSpecificDamageAreaFromJson, AbilityEffectSpecificDamageAreaEncodable, AbilityEffectSpecificDamageOverTimeToJson, AbilityEffectSpecificDamageOverTimeFromJson, AbilityEffectSpecificLinkedFireToJson, AbilityEffectSpecificLinkedFireFromJson, AbilityEffectSpecificSpellOnEntityNearbyToJson, AbilityEffectSpecificSpellOnEntityNearbyFromJson, AbilityEffectSpecificTimedSpellToJson, AbilityEffectSpecificTimedSpellFromJson, AbilityEffectSpecificCollectorToJson, AbilityEffectSpecificCollectorFromJson, AbilityEffectSpecificAuraToJson, AbilityEffectSpecificAuraFromJson, AbilityEffectSpecificMovingIntervalCastToJson, AbilityEffectSpecificMovingIntervalCastFromJson, Select, Items, LastIndexOf, Distinct;
    match v
    case Invalid =>
    case DamageArea(p) =>
      AbilityEffectSpecificDamageAreaRoundTrip(p);
      if AbilityEffectSpecificDamageAreaToJson(p).Ok? {
        SelectEncoded(AbilityEffectSpecificLabels, 1, AbilityEffectSpecificDamageAreaToJson(p).value);
      }
    case DamageOverTime(p) =>
      AbilityEffectSpecificDamageOverTimeRoundTrip(p);
      if AbilityEffectSpecificDamageOverTimeToJson(p).Ok? {
        SelectEncoded(AbilityEffectSpecificLabels, 2, AbilityEffectSpecificDamageOverTimeToJson(p).value);
      }
    case LinkedFire(p) =>
      AbilityEffectSpecificLinkedFireRoundTrip(p);
      if AbilityEffectSpecificLinkedFireToJson(p).Ok? {
        SelectEncoded(AbilityEffectSpecificLabels, 3, AbilityEffectSpecificLinkedFireToJson(p).value);
      }
    case SpellOnEntityNearby(p) =>
      AbilityEffectSpecificSpellOnEntityNearbyRoundTrip(p);
      if AbilityEffectSpecificSpellOnEntityNearbyToJson(p).Ok? {
        SelectEncoded(AbilityEffectSpecificLabels, 4, AbilityEffectSpecificSpellOnEntityNearbyToJson(p).value);
      }
    case TimedSpell(p) =>
      AbilityEffectSpecificTimedSpellRoundTrip(p);
      if AbilityEffectSpecificTimedSpellToJson(p).Ok? {
        SelectEncoded(AbilityEffectSpecificLabels, 5, AbilityEffectSpecificTimedSpellToJson(p).value);
      }
    case Collector(p) =>
      AbilityEffectSpecificCollectorRoundTrip(p);
      if AbilityEffectSpecificCollectorToJson(p).Ok? {
        SelectEncoded(AbilityEffectSpecificLabels, 6, AbilityEffectSpecificCollectorToJson(p).value);
      }
    case Aura(p) =>
      AbilityEffectSpecificAuraRoundTrip(p);
      if AbilityEffectSpecificAuraToJson(p).Ok? {
        SelectEncoded(AbilityEffectSpecificLabels, 7, AbilityEffectSpecificAuraToJson(p).value);
      }
    case MovingIntervalCast(p) =>
      AbilityEffectSpecificMovingIntervalCastRoundTrip(p);
      if AbilityEffectSpecificMovingIntervalCastToJson(p).Ok? {
        SelectEncoded(AbilityEffectSpecificLabels, 8, AbilityEffectSpecificMovingIntervalCastToJson(p).value);
      }
    case Other => SelectEncoded(AbilityEffectSpecificLabels, 9, MarkerJson("AbilityEffectSpecificOther"));
  }

  // AbilityEffect
  datatype AbilityEffect = AbilityEffect(id: AbilityId, line: AbilityLine, source: EntityId, sourceTeam: u8, startTick: Option<Tick>, endTick: Option<Tick>, specific: AbilityEffectSpecific)

  const DefaultAbilityEffect: AbilityEffect := AbilityEffect(0, 0, 0, 0, None, None, AbilityEffectSpecific.Invalid)

  predicate AbilityEffectEncodable(v: AbilityEffect)
  {
    hide AbilityEffectSpecificEncodable;
    AbilityEffectSpecificEncodable(v.specific)
  }

  function AbilityEffectToJson(v: AbilityEffect): Outcome<Json>
  {
    hide AbilityEffectSpecificToJson;
    var j1 := Put(Null, "id", Int(v.id));
    var j2 := Put(j1, "line", Int(v.line));
    var j3 := Put(j2, "source", Int(v.source));
    var j4 := Put(j3, "source_team", Int(v.sourceTeam));
    var j5 := PutOptional(j4, "start_tick", if v.startTick.Some? then Some(Int(v.startTick.value)) else None);
    var j6 := PutOptional(j5, "end_tick", if v.endTick.Some? then Some(Int(v.endTick.value)) else None);
    var specificJson :- AbilityEffectSpecificToJson(v.specific);
    var j7 := Put(j6, "specific", specificJson);
    Ok(j7)
  }

  function AbilityEffectFromJson(j: Json, prior: AbilityEffect): Outcome<AbilityEffect>
  {
    hide AbilityEffectSpecificFromJson;
    var idJson :- At(j, "id");
    var id :- U32FromJson(idJson);
    var lineJson :- At(j, "line");
    var line :- EnumFromJson(lineJson);
    var sourceJson :- At(j, "source");
    var source :- U32FromJson(sourceJson);
    var sourceTeamJson :- At(j, "source_team");
    var sourceTeam :- U8FromJson(sourceTeamJson);
    var startTick :- OptionalAt(j, "start_tick", prior.startTick, U32FromJson);
    var endTick :- OptionalAt(j, "end_tick", prior.endTick, U32FromJson);
    var specificJson :- At(j, "specific");
    var specific :- AbilityEffectSpecificFromJson(specificJson, prior.specific);
    Ok(AbilityEffect(id, line, source, sourceTeam, startTick, endTick, specific))
  }

  function GetAbilityEffect(j: Json): Outcome<AbilityEffect>
  {
    AbilityEffectFromJson(j, DefaultAbilityEffect)
  }

  /** Keys of the encoded object, part 1: each holds its field, as written. */
  lemma AbilityEffectFieldsPart1(v: AbilityEffect)
    requires AbilityEffectToJson(v).Ok?
    ensures hide *; var j := AbilityEffectToJson(v).value;
      && j.Obj?
      && At(j, "id") == Ok(Int(v.id))
      && At(j, "line") == Ok(Int(v.line))
      && At(j, "source") == Ok(Int(v.source))
      && At(j, "source_team") == Ok(Int(v.sourceTeam))
      && OptionalAt(j, "start_tick", None, U32FromJson) == Ok(v.startTick)
      && OptionalAt(j, "end_tick", None, U32FromJson) == Ok(v.endTick)
  {
    hide AbilityEffectSpecificToJson, Put, PutOptional, Get, At, OptionalAt, SeqToJson, IntegerOf;
  }

  /** Keys of the encoded object, part 2: each holds its field, as written. */
  lemma AbilityEffectFieldsPart2(v: AbilityEffect)
    requires AbilityEffectToJson(v).Ok?
    ensures hide *; var j := AbilityEffectToJson(v).value;
      && AbilityEffectSpecificToJson(v.specific).Ok?
      && At(j, "specific") == Ok(AbilityEffectSpecificToJson(v.specific).value)
  {
    hide AbilityEffectSpecificToJson, Put, PutOptional, Get, At, OptionalAt, SeqToJson, IntegerOf;
  }

  lemma AbilityEffectRoundTrip(v: AbilityEffect)
    ensures hide *; AbilityEffectToJson(v).Ok? <==> AbilityEffectEncodable(v)
    ensures hide *; AbilityEffectToJson(v).Ok? ==> AbilityEffectToJson(v).value.Obj?
    ensures hide *; AbilityEffectEncodable(v) ==> GetAbilityEffect(AbilityEffectToJson(v).value) == Ok(v)
  {
    hide AbilityEffectSpecificToJson, AbilityEffectSpecificFromJson, AbilityEffectSpecificEncodable, Put, PutOptional, Get, At, OptionalAt, EncodeEach, DecodeEach, SeqFromJson, FixedFromJson, IntegerOf, U8FromJson, U16FromJson, U32FromJson, U64FromJson, EnumFromJson, FloatFromJson, BoolFromJson, StringFromJson;
    AbilityEffectSpecificRoundTrip(v.specific, AbilityEffectSpecific.Invalid);
    if AbilityEffectToJson(v).Ok? && AbilityEffectEncodable(v) {
      AbilityEffectFieldsPart1(v);
      AbilityEffectFieldsPart2(v);
      var j := AbilityEffectToJson(v).value;
      hide AbilityEffectToJson;
      assert U32FromJson(Int(v.id)) == Ok(v.id);
      assert EnumFromJson(Int(v.line)) == Ok(v.line);
      assert U32FromJson(Int(v.source)) == Ok(v.source);
      assert U8FromJson(Int(v.sourceTeam)) == Ok(v.sourceTeam);
      assert GetAbilityEffect(j) == Ok(v);
    }
  }

  /** A vector of `AbilityEffect` reads back as written. */
  lemma AbilityEffectSeqRoundTrip(s: seq<AbilityEffect>)
    ensures hide *; SeqToJson(s, AbilityEffectToJson).Ok? <==> forall i :: 0 <= i < |s| ==> AbilityEffectEncodable(s[i])
    ensures hide *; (forall i :: 0 <= i < |s| ==> AbilityEffectEncodable(s[i])) ==> SeqFromJson(SeqToJson(s, AbilityEffectToJson).value, GetAbilityEffect) == Ok(s)
  {
    hide AbilityEffectToJson, AbilityEffectFromJson, AbilityEffectEncodable;
    forall i | 0 <= i < |s|
      ensures AbilityEffectToJson(s[i]).Ok? <==> AbilityEffectEncodable(s[i])
      ensures AbilityEffectEncodable(s[i]) ==> GetAbilityEffect(AbilityEffectToJson(s[i]).value) == Ok(s[i])
    {
      AbilityEffectRoundTrip(s[i]);
    }
    EncodeEachOk(s, AbilityEffectToJson);
    if forall i :: 0 <= i < |s| ==> AbilityEffectEncodable(s[i]) {
      SeqRoundTrip(s, AbilityEffectToJson, GetAbilityEffect);
    }
  }

  // MountStateMountingSquad
  datatype MountStateMountingSquad = MountStateMountingSquad(barrier: EntityId)

  const DefaultMountStateMountingSquad: MountStateMountingSquad := MountStateMountingSquad(0)

  function MountStateMountingSquadToJson(v: MountStateMountingSquad): Outcome<Json>
  {
    var j1 := Put(Null, "barrier", Int(v.barrier));
    Ok(j1)
  }

  function MountStateMountingSquadFromJson(j: Json, prior: MountStateMountingSquad): Outcome<MountStateMountingSquad>
  {
    var barrierJson :- At(j, "barrier");
    var barrier :- U32FromJson(barrierJson);
    Ok(MountStateMountingSquad(barrier))
  }

  function GetMountStateMountingSquad(j: Json): Outcome<MountStateMountingSquad>
  {
    MountStateMountingSquadFromJson(j, DefaultMountStateMountingSquad)
  }

  lemma MountStateMountingSquadRoundTrip(v: MountStateMountingSquad)
    ensures MountStateMountingSquadToJson(v).Ok? && MountStateMountingSquadToJson(v).value.Obj?
    ensures GetMountStateMountingSquad(MountStateMountingSquadToJson(v).value) == Ok(v)
  {
    hide Put, PutOptional, Get, At, OptionalAt, EncodeEach, DecodeEach, SeqFromJson, FixedFromJson, IntegerOf, U8FromJson, U16FromJson, U32FromJson, U64FromJson, EnumFromJson, FloatFromJson, BoolFromJson, StringFromJson;
  }

  // MountStateMountingFigure
  datatype MountStateMountingFigure = MountStateMountingFigure(barrier: EntityId, slot: u8)

  const DefaultMountStateMountingFigure: MountStateMountingFigure := MountStateMountingFigure(0, 0)

  function MountStateMountingFigureToJson(v: MountStateMountingFigure): Outcome<Json>
  {
    var j1 := Put(Null, "barrier", Int(v.barrier));
    var j2 := Put(j1, "slot", Int(v.slot));
    Ok(j2)
  }

  function MountStateMountingFigureFromJson(j: Json, prior: MountStateMountingFigure): Outcome<MountStateMountingFigure>
  {
    var barrierJson :- At(j, "barrier");
    var barrier :- U32FromJson(barrierJson);
    var slotJson :- At(j, "slot");
    var slot :- U8FromJson(slotJson);
    Ok(MountStateMountingFigure(barrier, slot))
  }

  function GetMountStateMountingFigure(j: Json): Outcome<MountStateMountingFigure>
  {
    MountStateMountingFigureFromJson(j, DefaultMountStateMountingFigure)
  }

  lemma MountStateMountingFigureRoundTrip(v: MountStateMountingFigure)
    ensures MountStateMountingFigureToJson(v).Ok? && MountStateMountingFigureToJson(v).value.Obj?
    ensures GetMountStateMountingFigure(MountStateMountingFigureToJson(v).value) == Ok(v)
  {
    hide Put, PutOptional, Get, At, OptionalAt, EncodeEach, DecodeEach, SeqFromJson, FixedFromJson, IntegerOf, U8FromJson, U16FromJson, U32FromJson, U64FromJson, EnumFromJson, FloatFromJson, BoolFromJson, StringFromJson;
  }

  // MountStateMountedSquad
  datatype MountStateMountedSquad = MountStateMountedSquad(barrier: EntityId)

  const DefaultMountStateMountedSquad: MountStateMountedSquad := MountStateMountedSquad(0)

  function MountStateMountedSquadToJson(v: MountStateMountedSquad): Outcome<Json>
  {
    var j1 := Put(Null, "barrier", Int(v.barrier));
    Ok(j1)
  }

  function MountStateMountedSquadFromJson(j: Json, prior: MountStateMountedSquad): Outcome<MountStateMountedSquad>
  {
    var barrierJson :- At(j, "barrier");
    var barrier :- U32FromJson(barrierJson);
    Ok(MountStateMountedSquad(barrier))
  }

  function GetMountStateMountedSquad(j: Json): Outcome<MountStateMountedSquad>
  {
    MountStateMountedSquadFromJson(j, DefaultMountStateMountedSquad)
  }

  lemma MountStateMountedSquadRoundTrip(v: MountStateMountedSquad)
    ensures MountStateMountedSquadToJson(v).Ok? && MountStateMountedSquadToJson(v).value.Obj?
    ensures GetMountStateMountedSquad(MountStateMountedSquadToJson(v).value) == Ok(v)
  {
    hide Put, PutOptional, Get, At, OptionalAt, EncodeEach, DecodeEach, SeqFromJson, FixedFromJson, IntegerOf, U8FromJson, U16FromJson, U32FromJson, U64FromJson, EnumFromJson, FloatFromJson, BoolFromJson, StringFromJson;
  }

  // MountStateMountedFigure
  datatype MountStateMountedFigure = MountStateMountedFigure(barrier: EntityId, slot: u8)

  const DefaultMountStateMountedFigure: MountStateMountedFigure := MountStateMountedFigure(0, 0)

  function MountStateMountedFigureToJson(v: MountStateMountedFigure): Outcome<Json>
  {
    var j1 := Put(Null, "barrier", Int(v.barrier));
    var j2 := Put(j1, "slot", Int(v.slot));
    Ok(j2)
  }

  function MountStateMountedFigureFromJson(j: Json, prior: MountStateMountedFigure): Outcome<MountStateMountedFigure>
  {
    var barrierJson :- At(j, "barrier");
    var barrier :- U32FromJson(barrierJson);
    var slotJson :- At(j, "slot");
    var slot :- U8FromJson(slotJson);
    Ok(MountStateMountedFigure(barrier, slot))
  }

  function GetMountStateMountedFigure(j: Json): Outcome<MountStateMountedFigure>
  {
    MountStateMountedFigureFromJson(j, DefaultMountStateMountedFigure)
  }

  lemma MountStateMountedFigureRoundTrip(v: MountStateMountedFigure)
    ensures MountStateMountedFigureToJson(v).Ok? && MountStateMountedFigureToJson(v).value.Obj?
    ensures GetMountStateMountedFigure(MountStateMountedFigureToJson(v).value) == Ok(v)
  {
    hide Put, PutOptional, Get, At, OptionalAt, EncodeEach, DecodeEach, SeqFromJson, FixedFromJson, IntegerOf, U8FromJson, U16FromJson, U32FromJson, U64FromJson, EnumFromJson, FloatFromJson, BoolFromJson, StringFromJson;
  }

  // MountStateUnknown
  datatype MountStateUnknown = MountStateUnknown(mountState: u8, enterExitBarrierModule: u32, targetBarrierModule: u32, currentBarrierModule: u32, slot: u32)

  const DefaultMountStateUnknown: MountStateUnknown := MountStateUnknown(0, 0, 0, 0, 0)

  function MountStateUnknownToJson(v: MountStateUnknown): Outcome<Json>
  {
    var j1 := Put(Null, "mount_state", Int(v.mountState));
    var j2 := Put(j1, "enter_exit_barrier_module", Int(v.enterExitBarrierModule));
    var j3 := Put(j2, "target_barrier_module", Int(v.targetBarrierModule));
    var j4 := Put(j3, "current_barrier_module", Int(v.currentBarrierModule));
    var j5 := Put(j4, "slot", Int(v.slot));
    Ok(j5)
  }

  function MountStateUnknownFromJson(j: Json, prior: MountStateUnknown): Outcome<MountStateUnknown>
  {
    var mountStateJson :- At(j, "mount_state");
    var mountState :- U8FromJson(mountStateJson);
    var enterExitBarrierModuleJson :- At(j, "enter_exit_barrier_module");
    var enterExitBarrierModule :- U32FromJson(enterExitBarrierModuleJson);
    var targetBarrierModuleJson :- At(j, "target_barrier_module");
    var targetBarrierModule :- U32FromJson(targetBarrierModuleJson);
    var currentBarrierModuleJson :- At(j, "current_barrier_module");
    var currentBarrierModule :- U32FromJson(currentBarrierModuleJson);
    var slotJson :- At(j, "slot");
    var slot :- U32FromJson(slotJson);
    Ok(MountStateUnknown(mountState, enterExitBarrierModule, targetBarrierModule, currentBarrierModule, slot))
  }

  function GetMountStateUnknown(j: Json): Outcome<MountStateUnknown>
  {
    MountStateUnknownFromJson(j, DefaultMountStateUnknown)
  }

  /** Each key of the encoded object holds its field, as written. */
  lemma MountStateUnknownFields(v: MountStateUnknown)
    requires MountStateUnknownToJson(v).Ok?
    ensures var j := MountStateUnknownToJson(v).value;
      && j.Obj?
      && At(j, "mount_state") == Ok(Int(v.mountState))
      && At(j, "enter_exit_barrier_module") == Ok(Int(v.enterExitBarrierModule))
      && At(j, "target_barrier_module") == Ok(Int(v.targetBarrierModule))
      && At(j, "current_barrier_module") == Ok(Int(v.currentBarrierModule))
      && At(j, "slot") == Ok(Int(v.slot))
  {
    hide Put, PutOptional, Get, At, OptionalAt, SeqToJson, IntegerOf;
  }

  lemma MountStateUnknownRoundTrip(v: MountStateUnknown)
    ensures MountStateUnknownToJson(v).Ok? && MountStateUnknownToJson(v).value.Obj?
    ensures GetMountStateUnknown(MountStateUnknownToJson(v).value) == Ok(v)
  {
    hide Put, PutOptional, Get, At, OptionalAt, EncodeEach, DecodeEach, SeqFromJson, FixedFromJson, IntegerOf, U8FromJson, U16FromJson, U32FromJson, U64FromJson, EnumFromJson, FloatFromJson, BoolFromJson, StringFromJson;
    if MountStateUnknownToJson(v).Ok? {
      MountStateUnknownFields(v);
      var j := MountStateUnknownToJson(v).value;
      hide MountStateUnknownToJson;
      assert U8FromJson(Int(v.mountState)) == Ok(v.mountState);
      assert U32FromJson(Int(v.enterExitBarrierModule)) == Ok(v.enterExitBarrierModule);
      assert U32FromJson(Int(v.targetBarrierModule)) == Ok(v.targetBarrierModule);
      assert U32FromJson(Int(v.currentBarrierModule)) == Ok(v.currentBarrierModule);
      assert U32FromJson(Int(v.slot)) == Ok(v.slot);
      assert GetMountStateUnknown(j) == Ok(v);
    }
  }

  // MountState
  datatype MountState =
    | Invalid
    | Unmounted
    | MountingSquad(mountingSquad: MountStateMountingSquad)
    | MountingFigure(mountingFigure: MountStateMountingFigure)
    | MountedSquad(mountedSquad: MountStateMountedSquad)
    | MountedFigure(mountedFigure: MountStateMountedFigure)
    | Unknown(unknown: MountStateUnknown)

  /** The labels `from_json` tests, in order. */
  const MountStateLabels: seq<string> := ["Unmounted", "MountingSquad", "MountingFigure", "MountedSquad", "MountedFigure", "Unknown"]

  /** The position of the case in the `std::variant`; 0 is `Invalid`. */
  function MountStateIndex(v: MountState): nat
  {
    match v
    case Invalid => 0
    case Unmounted => 1
    case MountingSquad(_) => 2
    case MountingFigure(_) => 3
    case MountedSquad(_) => 4
    case MountedFigure(_) => 5
    case Unknown(_) => 6
  }

  predicate MountStateEncodable(v: MountState)
  {
    match v
    case Invalid => false
    case Unmounted => true
    case MountingSquad(_) => true
    case MountingFigure(_) => true
    case MountedSquad(_) => true
    case MountedFigure(_) => true
    case Unknown(_) => true
  }

  /** The payload of the active case, as the union member holding it encodes. */
  function MountStatePayloadToJson(v: MountState): Outcome<Json>
  {
    hide MountStateMountingSquadToJson, MountStateMountingFigureToJson, MountStateMountedSquadToJson, MountStateMountedFigureToJson, MountStateUnknownToJson;
    match v
    case Invalid => Err(InvalidDefaultVariant)
    case Unmounted => Ok(MarkerJson("MountStateUnmounted"))
    case MountingSquad(p) => MountStateMountingSquadToJson(p)
    case MountingFigure(p) => MountStateMountingFigureToJson(p)
    case MountedSquad(p) => MountStateMountedSquadToJson(p)
    case MountedFigure(p) => MountStateMountedFigureToJson(p)
    case Unknown(p) => MountStateUnknownToJson(p)
  }

  function MountStateToJson(v: MountState): Outcome<Json>
  {
    hide MountStateMountingSquadToJson, MountStateMountingFigureToJson, MountStateMountedSquadToJson, MountStateMountedFigureToJson, MountStateUnknownToJson;
    match v
    case Invalid => Err(InvalidDefaultVariant)
    case Unmounted => Ok(Obj([("Unmounted", MarkerJson("MountStateUnmounted"))]))
    case MountingSquad(p) => var x :- MountStateMountingSquadToJson(p); Ok(Obj([("MountingSquad", x)]))
    case MountingFigure(p) => var x :- MountStateMountingFigureToJson(p); Ok(Obj([("MountingFigure", x)]))
    case MountedSquad(p) => var x :- MountStateMountedSquadToJson(p); Ok(Obj([("MountedSquad", x)]))
    case MountedFigure(p) => var x :- MountStateMountedFigureToJson(p); Ok(Obj([("MountedFigure", x)]))
    case Unknown(p) => var x :- MountStateUnknownToJson(p); Ok(Obj([("Unknown", x)]))
  }

  /** `value.get<Payload>()` for case `index` of `MountStateLabels`. */
  function MountStateCase(index: nat, payload: Json): Outcome<MountState>
    requires 1 <= index <= |MountStateLabels|
  {
    hide MountStateMountingSquadFromJson, MountStateMountingFigureFromJson, MountStateMountedSquadFromJson, MountStateMountedFigureFromJson, MountStateUnknownFromJson;
    match index
    case 1 => Ok(MountState.Unmounted)
    case 2 => var x :- GetMountStateMountingSquad(payload); Ok(MountState.MountingSquad(x))
    case 3 => var x :- GetMountStateMountingFigure(payload); Ok(MountState.MountingFigure(x))
    case 4 => var x :- GetMountStateMountedSquad(payload); Ok(MountState.MountedSquad(x))
    case 5 => var x :- GetMountStateMountedFigure(payload); Ok(MountState.MountedFigure(x))
    case _ => var x :- GetMountStateUnknown(payload); Ok(MountState.Unknown(x))
  }

  function MountStateFromJson(j: Json, prior: MountState): Outcome<MountState>
  {
    match Select(MountStateLabels, j)
    case NoItems => Err(InvalidJson)
    case Unlabelled => Ok(prior)
    case Selected(index, payload) => MountStateCase(index, payload)
  }

  function GetMountState(j: Json): Outcome<MountState>
  {
    MountStateFromJson(j, MountState.Invalid)
  }

  /** No label of `MountStateLabels` occurs twice. */
  lemma MountStateLabelsDistinct()
    ensures Distinct(MountStateLabels)
  {
  }

  lemma MountStateRoundTrip(v: MountState, prior: MountState)
    ensures hide *; MountStateToJson(v).Ok? <==> MountStateEncodable(v)
    ensures hide *; MountStateEncodable(v) ==> MountStateFromJson(MountStateToJson(v).value, prior) == Ok(v)
  {
    MountStateLabelsDistinct();
    hide MountStateMountingSquadToJson, MountStateMountingSquadFromJson, MountStateMountingFigureToJson, MountStateMountingFigureFromJson, MountStateMountedSquadToJson, MountStateMountedSquadFromJson, MountStateMountedFigureToJson, MountStateMountedFigureFromJson, MountStateUnknownToJson, MountStateUnknownFromJson, Select, Items, LastIndexOf, Distinct;
    match v
    case Invalid =>
    case Unmounted => SelectEncoded(MountStateLabels, 1, MarkerJson("MountStateUnmounted"));
    case MountingSquad(p) =>
      MountStateMountingSquadRoundTrip(p);
      if MountStateMountingSquadToJson(p).Ok? {
        SelectEncoded(MountStateLabels, 2, MountStateMountingSquadToJson(p).value);
      }
    case MountingFigure(p) =>
      MountStateMountingFigureRoundTrip(p);
      if MountStateMountingFigureToJson(p).Ok? {
        SelectEncoded(MountStateLabels, 3, MountStateMountingFigureToJson(p).value);
      }
    case MountedSquad(p) =>
      MountStateMountedSquadRoundTrip(p);
      if MountStateMountedSquadToJson(p).Ok? {
        SelectEncoded(MountStateLabels, 4, MountStateMountedSquadToJson(p).value);
      }
    case MountedFigure(p) =>
      MountStateMountedFigureRoundTrip(p);
      if MountStateMountedFigureToJson(p).Ok? {
        SelectEncoded(MountStateLabels, 5, MountStateMountedFigureToJson(p).value);
      }
    case Unknown(p) =>
      MountStateUnknownRoundTrip(p);
      if MountStateUnknownToJson(p).Ok? {
        SelectEncoded(MountStateLabels, 6, MountStateUnknownToJson(p).value);
      }
  }

  // AspectPowerProduction
  datatype AspectPowerProduction = AspectPowerProduction(currentPower: real, powerCapacity: real)

  const DefaultAspectPowerProduction: AspectPowerProduction := AspectPowerProduction(0.0, 0.0)

  function AspectPowerProductionToJson(v: AspectPowerProduction): Outcome<Json>
  {
    var j1 := Put(Null, "current_power", Float(v.currentPower));
    var j2 := Put(j1, "power_capacity", Float(v.powerCapacity));
    Ok(j2)
  }

  function AspectPowerProductionFromJson(j: Json, prior: AspectPowerProduction): Outcome<AspectPowerProduction>
  {
    var currentPowerJson :- At(j, "current_power");
    var currentPower :- FloatFromJson(currentPowerJson);
    var powerCapacityJson :- At(j, "power_capacity");
    var powerCapacity :- FloatFromJson(powerCapacityJson);
    Ok(AspectPowerProduction(currentPower, powerCapacity))
  }

  function GetAspectPowerProduction(j: Json): Outcome<AspectPowerProduction>
  {
    AspectPowerProductionFromJson(j, DefaultAspectPowerProduction)
  }

  lemma AspectPowerProductionRoundTrip(v: AspectPowerProduction)
    ensures AspectPowerProductionToJson(v).Ok? && AspectPowerProductionToJson(v).value.Obj?
    ensures GetAspectPowerProduction(AspectPowerProductionToJson(v).value) == Ok(v)
  {
    hide Put, PutOptional, Get, At, OptionalAt, EncodeEach, DecodeEach, SeqFromJson, FixedFromJson, IntegerOf, U8FromJson, U16FromJson, U32FromJson, U64FromJson, EnumFromJson, FloatFromJson, BoolFromJson, StringFromJson;
  }

  // AspectHealth
  datatype AspectHealth = AspectHealth(currentHp: real, capCurrentMax: real)

  const DefaultAspectHealth: AspectHealth := AspectHealth(0.0, 0.0)

  function AspectHealthToJson(v: AspectHealth): Outcome<Json>
  {
    var j1 := Put(Null, "current_hp", Float(v.currentHp));
    var j2 := Put(j1, "cap_current_max", Float(v.capCurrentMax));
    Ok(j2)
  }

  function AspectHealthFromJson(j: Json, prior: AspectHealth): Outcome<AspectHealth>
  {
    var currentHpJson :- At(j, "current_hp");
    var currentHp :- FloatFromJson(currentHpJson);
    var capCurrentMaxJson :- At(j, "cap_current_max");
    var capCurrentMax :- FloatFromJson(capCurrentMaxJson);
    Ok(AspectHealth(currentHp, capCurrentMax))
  }

  function GetAspectHealth(j: Json): Outcome<AspectHealth>
  {
    AspectHealthFromJson(j, DefaultAspectHealth)
  }

  lemma AspectHealthRoundTrip(v: AspectHealth)
    ensures AspectHealthToJson(v).Ok? && AspectHealthToJson(v).value.Obj?
    ensures GetAspectHealth(AspectHealthToJson(v).value) == Ok(v)
  {
    hide Put, PutOptional, Get, At, OptionalAt, EncodeEach, DecodeEach, SeqFromJson, FixedFromJson, IntegerOf, U8FromJson, U16FromJson, U32FromJson, U64FromJson, EnumFromJson, FloatFromJson, BoolFromJson, StringFromJson;
  }

  // AspectModeChange
  datatype AspectModeChange = AspectModeChange(currentMode: ModeId, allModes: seq<ModeId>)

  const DefaultAspectModeChange: AspectModeChange := AspectModeChange(0, [])

  function AspectModeChangeToJson(v: AspectModeChange): Outcome<Json>
  {
    var j1 := Put(Null, "current_mode", Int(v.currentMode));
    var allModesJson :- SeqToJson(v.allModes, U32ToJson);
    var j2 := Put(j1, "all_modes", allModesJson);
    Ok(j2)
  }

  function AspectModeChangeFromJson(j: Json, prior: AspectModeChange): Outcome<AspectModeChange>
  {
    var currentModeJson :- At(j, "current_mode");
    var currentMode :- U32FromJson(currentModeJson);
    var allModesJson :- At(j, "all_modes");
    var allModes :- SeqFromJson(allModesJson, U32FromJson);
    Ok(AspectModeChange(currentMode, allModes))
  }

  function GetAspectModeChange(j: Json): Outcome<AspectModeChange>
  {
    AspectModeChangeFromJson(j, DefaultAspectModeChange)
  }

  lemma AspectModeChangeRoundTrip(v: AspectModeChange)
    ensures AspectModeChangeToJson(v).Ok? && AspectModeChangeToJson(v).value.Obj?
    ensures GetAspectModeChange(AspectModeChangeToJson(v).value) == Ok(v)
  {
    hide Put, PutOptional, Get, At, OptionalAt, EncodeEach, DecodeEach, SeqFromJson, FixedFromJson, IntegerOf, U8FromJson, U16FromJson, U32FromJson, U64FromJson, EnumFromJson, FloatFromJson, BoolFromJson, StringFromJson;
    SeqRoundTrip(v.allModes, U32ToJson, U32FromJson);
  }

  // AspectMountBarrier
  datatype AspectMountBarrier = AspectMountBarrier(state: MountState)

  const DefaultAspectMountBarrier: AspectMountBarrier := AspectMountBarrier(MountState.Invalid)

  predicate AspectMountBarrierEncodable(v: AspectMountBarrier)
  {
    hide MountStateEncodable;
    MountStateEncodable(v.state)
  }

  function AspectMountBarrierToJson(v: AspectMountBarrier): Outcome<Json>
  {
    hide MountStateToJson;
    var stateJson :- MountStateToJson(v.state);
    var j1 := Put(Null, "state", stateJson);
    Ok(j1)
  }

  function AspectMountBarrierFromJson(j: Json, prior: AspectMountBarrier): Outcome<AspectMountBarrier>
  {
    hide MountStateFromJson;
    var stateJson :- At(j, "state");
    var state :- MountStateFromJson(stateJson, prior.state);
    Ok(AspectMountBarrier(state))
  }

  function GetAspectMountBarrier(j: Json): Outcome<AspectMountBarrier>
  {
    AspectMountBarrierFromJson(j, DefaultAspectMountBarrier)
  }

  /** Each key of the encoded object holds its field, as written. */
  lemma AspectMountBarrierFields(v: AspectMountBarrier)
    requires AspectMountBarrierToJson(v).Ok?
    ensures hide *; var j := AspectMountBarrierToJson(v).value;
      && j.Obj?
      && MountStateToJson(v.state).Ok?
      && At(j, "state") == Ok(MountStateToJson(v.state).value)
  {
    hide MountStateToJson, Put, PutOptional, Get, At, OptionalAt, SeqToJson, IntegerOf;
  }

  lemma AspectMountBarrierRoundTrip(v: AspectMountBarrier)
    ensures hide *; AspectMountBarrierToJson(v).Ok? <==> AspectMountBarrierEncodable(v)
    ensures hide *; AspectMountBarrierToJson(v).Ok? ==> AspectMountBarrierToJson(v).value.Obj?
    ensures hide *; AspectMountBarrierEncodable(v) ==> GetAspectMountBarrier(AspectMountBarrierToJson(v).value) == Ok(v)
  {
    hide MountStateToJson, MountStateFromJson, MountStateEncodable, Put, PutOptional, Get, At, OptionalAt, EncodeEach, DecodeEach, SeqFromJson, FixedFromJson, IntegerOf, U8FromJson, U16FromJson, U32FromJson, U64FromJson, EnumFromJson, FloatFromJson, BoolFromJson, StringFromJson;
    MountStateRoundTrip(v.state, MountState.Invalid);
    if AspectMountBarrierToJson(v).Ok? && AspectMountBarrierEncodable(v) {
      AspectMountBarrierFields(v);
      var j := AspectMountBarrierToJson(v).value;
      hide AspectMountBarrierToJson;
      assert GetAspectMountBarrier(j) == Ok(v);
    }
  }

  // AspectBarrierGate
  datatype AspectBarrierGate = AspectBarrierGate(open: bool)

  const DefaultAspectBarrierGate: AspectBarrierGate := AspectBarrierGate(false)

  function AspectBarrierGateToJson(v: AspectBarrierGate): Outcome<Json>
  {
    var j1 := Put(Null, "open", Bool(v.open));
    Ok(j1)
  }

  function AspectBarrierGateFromJson(j: Json, prior: AspectBarrierGate): Outcome<AspectBarrierGate>
  {
    var openJson :- At(j, "open");
    var open :- BoolFromJson(openJson);
    Ok(AspectBarrierGate(open))
  }

  function GetAspectBarrierGate(j: Json): Outcome<AspectBarrierGate>
  {
    AspectBarrierGateFromJson(j, DefaultAspectBarrierGate)
  }

  lemma AspectBarrierGateRoundTrip(v: AspectBarrierGate)
    ensures AspectBarrierGateToJson(v).Ok? && AspectBarrierGateToJson(v).value.Obj?
    ensures GetAspectBarrierGate(AspectBarrierGateToJson(v).value) == Ok(v)
  {
    hide Put, PutOptional, Get, At, OptionalAt, EncodeEach, DecodeEach, SeqFromJson, FixedFromJson, IntegerOf, U8FromJson, U16FromJson, U32FromJson, U64FromJson, EnumFromJson, FloatFromJson, BoolFromJson, StringFromJson;
  }

  // AspectConstructionData
  datatype AspectConstructionData = AspectConstructionData(refreshCountRemaining: TickCount, refreshCountTotal: TickCount, healthPerBuildUpdateTrigger: real, remainingHealthToAdd: real)

  const DefaultAspectConstructionData: AspectConstructionData := AspectConstructionData(0, 0, 0.0, 0.0)

  function AspectConstructionDataToJson(v: AspectConstructionData): Outcome<Json>
  {
    var j1 := Put(Null, "refresh_count_remaining", Int(v.refreshCountRemaining));
    var j2 := Put(j1, "refresh_count_total", Int(v.refreshCountTotal));
    var j3 := Put(j2, "health_per_build_update_trigger", Float(v.healthPerBuildUpdateTrigger));
    var j4 := Put(j3, "remaining_health_to_add", Float(v.remainingHealthToAdd));
    Ok(j4)
  }

  function AspectConstructionDataFromJson(j: Json, prior: AspectConstructionData): Outcome<AspectConstructionData>
  {
    var refreshCountRemainingJson :- At(j, "refresh_count_remaining");
    var refreshCountRemaining :- U32FromJson(refreshCountRemainingJson);
    var refreshCountTotalJson :- At(j, "refresh_count_total");
    var refreshCountTotal :- U32FromJson(refreshCountTotalJson);
    var healthPerBuildUpdateTriggerJson :- At(j, "health_per_build_update_trigger");
    var healthPerBuildUpdateTrigger :- FloatFromJson(healthPerBuildUpdateTriggerJson);
    var remainingHealthToAddJson :- At(j, "remaining_health_to_add");
    var remainingHealthToAdd :- FloatFromJson(remainingHealthToAddJson);
    Ok(AspectConstructionData(refreshCountRemaining, refreshCountTotal, healthPerBuildUpdateTrigger, remainingHealthToAdd))
  }

  function GetAspectConstructionData(j: Json): Outcome<AspectConstructionData>
  {
    AspectConstructionDataFromJson(j, DefaultAspectConstructionData)
  }

  /** Each key of the encoded object holds its field, as written. */
  lemma AspectConstructionDataFields(v: AspectConstructionData)
    requires AspectConstructionDataToJson(v).Ok?
    ensures var j := AspectConstructionDataToJson(v).value;
      && j.Obj?
      && At(j, "refresh_count_remaining") == Ok(Int(v.refreshCountRemaining))
      && At(j, "refresh_count_total") == Ok(Int(v.refreshCountTotal))
      && At(j, "health_per_build_update_trigger") == Ok(Float(v.healthPerBuildUpdateTrigger))
      && At(j, "remaining_health_to_add") == Ok(Float(v.remainingHealthToAdd))
  {
    hide Put, PutOptional, Get, At, OptionalAt, SeqToJson, IntegerOf;
  }

  lemma AspectConstructionDataRoundTrip(v: AspectConstructionData)
    ensures AspectConstructionDataToJson(v).Ok? && AspectConstructionDataToJson(v).value.Obj?
    ensures GetAspectConstructionData(AspectConstructionDataToJson(v).value) == Ok(v)
  {
    hide Put, PutOptional, Get, At, OptionalAt, EncodeEach, DecodeEach, SeqFromJson, FixedFromJson, IntegerOf, U8FromJson, U16FromJson, U32FromJson, U64FromJson, EnumFromJson, FloatFromJson, BoolFromJson, StringFromJson;
    if AspectConstructionDataToJson(v).Ok? {
      AspectConstructionDataFields(v);
      var j := AspectConstructionDataToJson(v).value;
      hide AspectConstructionDataToJson;
      assert U32FromJson(Int(v.refreshCountRemaining)) == Ok(v.refreshCountRemaining);
      assert U32FromJson(Int(v.refreshCountTotal)) == Ok(v.refreshCountTotal);
      assert FloatFromJson(Float(v.healthPerBuildUpdateTrigger)) == Ok(v.healthPerBuildUpdateTrigger);
      assert FloatFromJson(Float(v.remainingHealthToAdd)) == Ok(v.remainingHealthToAdd);
      assert GetAspectConstructionData(j) == Ok(v);
    }
  }

  // Aspect
  datatype Aspect =
    | Invalid
    | PowerProduction(powerProduction: AspectPowerProduction)
    | Health(health: AspectHealth)
    | Combat
    | ModeChange(modeChange: AspectModeChange)
    | Ammunition
    | SuperWeaponShadow
    | WormMovement
    | NPCTag
    | PlayerKit
    | Loot
    | Immunity
    | Turret
    | Tunnel
    | MountBarrier(mountBarrier: AspectMountBarrier)
    | SpellMemory
    | Portal
    | Hate
    | BarrierGate(barrierGate: AspectBarrierGate)
    | Attackable
    | SquadRefill
    | PortalExit
    | ConstructionData(constructionData: AspectConstructionData)
    | SuperWeaponShadowBomb
    | RepairBarrierSet
    | ConstructionRepair
    | Follower
    | CollisionBase
    | EditorUniqueID
    | Roam

  /** The labels `from_json` tests, in order. */
  const AspectLabels: seq<string> := ["PowerProduction", "Health", "Combat", "ModeChange", "Ammunition", "SuperWeaponShadow", "WormMovement", "NPCTag", "PlayerKit", "Loot", "Immunity", "Turret", "Tunnel", "MountBarrier", "SpellMemory", "Portal", "Hate", "BarrierGate", "Attackable", "SquadRefill", "PortalExit", "ConstructionData", "SuperWeaponShadowBomb", "RepairBarrierSet", "ConstructionRepair", "Follower", "CollisionBase", "EditorUniqueID", "Roam"]

  /** The position of the case in the `std::variant`; 0 is `Invalid`. */
  function AspectIndex(v: Aspect): nat
  {
    match v
    case Invalid => 0
    case PowerProduction(_) => 1
    case Health(_) => 2
    case Combat => 3
    case ModeChange(_) => 4
    case Ammunition => 5
    case SuperWeaponShadow => 6
    case WormMovement => 7
    case NPCTag => 8
    case PlayerKit => 9
    case Loot => 10
    case Immunity => 11
    case Turret => 12
    case Tunnel => 13
    case MountBarrier(_) => 14
    case SpellMemory => 15
    case Portal => 16
    case Hate => 17
    case BarrierGate(_) => 18
    case Attackable => 19
    case SquadRefill => 20
    case PortalExit => 21
    case ConstructionData(_) => 22
    case SuperWeaponShadowBomb => 23
    case RepairBarrierSet => 24
    case ConstructionRepair => 25
    case Follower => 26
    case CollisionBase => 27
    case EditorUniqueID => 28
    case Roam => 29
  }

  predicate AspectEncodable(v: Aspect)
  {
    hide AspectMountBarrierEncodable;
    match v
    case Invalid => false
    case PowerProduction(_) => true
    case Health(_) => true
    case Combat => true
    case ModeChange(_) => true
    case Ammunition => true
    case SuperWeaponShadow => true
    case WormMovement => true
    case NPCTag => true
    case PlayerKit => true
    case Loot => true
    case Immunity => true
    case Turret => true
    case Tunnel => true
    case MountBarrier(p) => AspectMountBarrierEncodable(p)
    case SpellMemory => true
    case Portal => true
    case Hate => true
    case BarrierGate(_) => true
    case Attackable => true
    case SquadRefill => true
    case PortalExit => true
    case ConstructionData(_) => true
    case SuperWeaponShadowBomb => true
    case RepairBarrierSet => true
    case ConstructionRepair => true
    case Follower => true
    case CollisionBase => true
    case EditorUniqueID => true
    case Roam => true
  }

  /** The payload of the active case, as the union member holding it encodes. */
  function AspectPayloadToJson(v: Aspect): Outcome<Json>
  {
    hide AspectPowerProductionToJson, AspectHealthToJson, AspectModeChangeToJson, AspectMountBarrierToJson, AspectBarrierGateToJson, AspectConstructionDataToJson;
    match v
    case Invalid => Err(InvalidDefaultVariant)
    case PowerProduction(p) => AspectPowerProductionToJson(p)
    case Health(p) => AspectHealthToJson(p)
    case Combat => Ok(MarkerJson("AspectCombat"))
    case ModeChange(p) => AspectModeChangeToJson(p)
    case Ammunition => Ok(MarkerJson("AspectAmmunition"))
    case SuperWeaponShadow => Ok(MarkerJson("AspectSuperWeaponShadow"))
    case WormMovement => Ok(MarkerJson("AspectWormMovement"))
    case NPCTag => Ok(MarkerJson("AspectNPCTag"))
    case PlayerKit => Ok(MarkerJson("AspectPlayerKit"))
    case Loot => Ok(MarkerJson("AspectLoot"))
    case Immunity => Ok(MarkerJson("AspectImmunity"))
    case Turret => Ok(MarkerJson("AspectTurret"))
    case Tunnel => Ok(MarkerJson("AspectTunnel"))
    case MountBarrier(p) => AspectMountBarrierToJson(p)
    case SpellMemory => Ok(MarkerJson("AspectSpellMemory"))
    case Portal => Ok(MarkerJson("AspectPortal"))
    case Hate => Ok(MarkerJson("AspectHate"))
    case BarrierGate(p) => AspectBarrierGateToJson(p)
    case Attackable => Ok(MarkerJson("AspectAttackable"))
    case SquadRefill => Ok(MarkerJson("AspectSquadRefill"))
    case PortalExit => Ok(MarkerJson("AspectPortalExit"))
    case ConstructionData(p) => AspectConstructionDataToJson(p)
    case SuperWeaponShadowBomb => Ok(MarkerJson("AspectSuperWeaponShadowBomb"))
    case RepairBarrierSet => Ok(MarkerJson("AspectRepairBarrierSet"))
    case ConstructionRepair => Ok(MarkerJson("AspectConstructionRepair"))
    case Follower => Ok(MarkerJson("AspectFollower"))
    case CollisionBase => Ok(MarkerJson("AspectCollisionBase"))
    case EditorUniqueID => Ok(MarkerJson("AspectEditorUniqueID"))
    case Roam => Ok(MarkerJson("AspectRoam"))
  }

  function AspectToJson(v: Aspect): Outcome<Json>
  {
    hide AspectPowerProductionToJson, AspectHealthToJson, AspectModeChangeToJson, AspectMountBarrierToJson, AspectBarrierGateToJson, AspectConstructionDataToJson;
    match v
    case Invalid => Err(InvalidDefaultVariant)
    case PowerProduction(p) => var x :- AspectPowerProductionToJson(p); Ok(Obj([("PowerProduction", x)]))
    case Health(p) => var x :- AspectHealthToJson(p); Ok(Obj([("Health", x)]))
    case Combat => Ok(Obj([("Combat", MarkerJson("AspectCombat"))]))
    case ModeChange(p) => var x :- AspectModeChangeToJson(p); Ok(Obj([("ModeChange", x)]))
    case Ammunition => Ok(Obj([("Ammunition", MarkerJson("AspectAmmunition"))]))
    case SuperWeaponShadow => Ok(Obj([("SuperWeaponShadow", MarkerJson("AspectSuperWeaponShadow"))]))
    case WormMovement => Ok(Obj([("WormMovement", MarkerJson("AspectWormMovement"))]))
    case NPCTag => Ok(Obj([("NPCTag", MarkerJson("AspectNPCTag"))]))
    case PlayerKit => Ok(Obj([("PlayerKit", MarkerJson("AspectPlayerKit"))]))
    case Loot => Ok(Obj([("Loot", MarkerJson("AspectLoot"))]))
    case Immunity => Ok(Obj([("Immunity", MarkerJson("AspectImmunity"))]))
    case Turret => Ok(Obj([("Turret", MarkerJson("AspectTurret"))]))
    case Tunnel => Ok(Obj([("Tunnel", MarkerJson("AspectTunnel"))]))
    case MountBarrier(p) => var x :- AspectMountBarrierToJson(p); Ok(Obj([("MountBarrier", x)]))
    case SpellMemory => Ok(Obj([("SpellMemory", MarkerJson("AspectSpellMemory"))]))
    case Portal => Ok(Obj([("Portal", MarkerJson("AspectPortal"))]))
    case Hate => Ok(Obj([("Hate", MarkerJson("AspectHate"))]))
    case BarrierGate(p) => var x :- AspectBarrierGateToJson(p); Ok(Obj([("BarrierGate", x)]))
    case Attackable => Ok(Obj([("Attackable", MarkerJson("AspectAttackable"))]))
    case SquadRefill => Ok(Obj([("SquadRefill", MarkerJson("AspectSquadRefill"))]))
    case PortalExit => Ok(Obj([("PortalExit", MarkerJson("AspectPortalExit"))]))
    case ConstructionData(p) => var x :- AspectConstructionDataToJson(p); Ok(Obj([("ConstructionData", x)]))
    case SuperWeaponShadowBomb => Ok(Obj([("SuperWeaponShadowBomb", MarkerJson("AspectSuperWeaponShadowBomb"))]))
    case RepairBarrierSet => Ok(Obj([("RepairBarrierSet", MarkerJson("AspectRepairBarrierSet"))]))
    case ConstructionRepair => Ok(Obj([("ConstructionRepair", MarkerJson("AspectConstructionRepair"))]))
    case Follower => Ok(Obj([("Follower", MarkerJson("AspectFollower"))]))
    case CollisionBase => Ok(Obj([("CollisionBase", MarkerJson("AspectCollisionBase"))]))
    case EditorUniqueID => Ok(Obj([("EditorUniqueID", MarkerJson("AspectEditorUniqueID"))]))
    case Roam => Ok(Obj([("Roam", MarkerJson("AspectRoam"))]))
  }

  /** `value.get<Payload>()` for case `index` of `AspectLabels`. */
  function AspectCase(index: nat, payload: Json): Outcome<Aspect>
    requires 1 <= index <= |AspectLabels|
  {
    hide AspectPowerProductionFromJson, AspectHealthFromJson, AspectModeChangeFromJson, AspectMountBarrierFromJson, AspectBarrierGateFromJson, AspectConstructionDataFromJson;
    match index
    case 1 => var x :- GetAspectPowerProduction(payload); Ok(Aspect.PowerProduction(x))
    case 2 => var x :- GetAspectHealth(payload); Ok(Aspect.Health(x))
    case 3 => Ok(Aspect.Combat)
    case 4 => var x :- GetAspectModeChange(payload); Ok(Aspect.ModeChange(x))
    case 5 => Ok(Aspect.Ammunition)
    case 6 => Ok(Aspect.SuperWeaponShadow)
    case 7 => Ok(Aspect.WormMovement)
    case 8 => Ok(Aspect.NPCTag)
    case 9 => Ok(Aspect.PlayerKit)
    case 10 => Ok(Aspect.Loot)
    case 11 => Ok(Aspect.Immunity)
    case 12 => Ok(Aspect.Turret)
    case 13 => Ok(Aspect.Tunnel)
    case 14 => var x :- GetAspectMountBarrier(payload); Ok(Aspect.MountBarrier(x))
    case 15 => Ok(Aspect.SpellMemory)
    case 16 => Ok(Aspect.Portal)
    case 17 => Ok(Aspect.Hate)
    case 18 => var x :- GetAspectBarrierGate(payload); Ok(Aspect.BarrierGate(x))
    case 19 => Ok(Aspect.Attackable)
    case 20 => Ok(Aspect.SquadRefill)
    case 21 => Ok(Aspect.PortalExit)
    case 22 => var x :- GetAspectConstructionData(payload); Ok(Aspect.ConstructionData(x))
    case 23 => Ok(Aspect.SuperWeaponShadowBomb)
    case 24 => Ok(Aspect.RepairBarrierSet)
    case 25 => Ok(Aspect.ConstructionRepair)
    case 26 => Ok(Aspect.Follower)
    case 27 => Ok(Aspect.CollisionBase)
    case 28 => Ok(Aspect.EditorUniqueID)
    case _ => Ok(Aspect.Roam)
  }

  function AspectFromJson(j: Json, prior: Aspect): Outcome<Aspect>
  {
    match Select(AspectLabels, j)
    case NoItems => Err(InvalidJson)
    case Unlabelled => Ok(prior)
    case Selected(index, payload) => AspectCase(index, payload)
  }

  function GetAspect(j: Json): Outcome<Aspect>
  {
    AspectFromJson(j, Aspect.Invalid)
  }

  // the table is checked in two halves, and across them, to keep each proof small
  lemma AspectLabelsDistinctHead()
    ensures forall i, k :: 0 <= i < k < 14 ==> AspectLabels[i] != AspectLabels[k]
  {
  }

  lemma AspectLabelsDistinctTail()
    ensures forall i, k :: 14 <= i < k < |AspectLabels| ==> AspectLabels[i] != AspectLabels[k]
  {
  }

  lemma AspectLabelsAcross()
    ensures forall i, k :: 0 <= i < 14 <= k < |AspectLabels| ==> AspectLabels[i] != AspectLabels[k]
  {
  }

  /** No label of `AspectLabels` occurs twice. */
  lemma AspectLabelsDistinct()
    ensures Distinct(AspectLabels)
  {
    AspectLabelsDistinctHead();
    AspectLabelsDistinctTail();
    AspectLabelsAcross();
  }

  /** The round trip for cases 0 to 2, proved apart to keep each proof small. */
  lemma AspectRoundTripPart1(v: Aspect, prior: Aspect)
    requires 0 <= AspectIndex(v) <= 2
    ensures hide *; AspectToJson(v).Ok? <==> AspectEncodable(v)
    ensures hide *; AspectEncodable(v) ==> AspectFromJson(AspectToJson(v).value, prior) == Ok(v)
  {
    AspectLabelsDistinct();
    hide AspectPowerProductionToJson, AspectPowerProductionFromJson, AspectHealthToJson, AspectHealthFromJson, AspectModeChangeToJson, AspectModeChangeFromJson, AspectMountBarrierToJson, AspectMountBarrierFromJson, AspectMountBarrierEncodable, AspectBarrierGateToJson, AspectBarrierGateFromJson, AspectConstructionDataToJson, AspectConstructionDataFromJson, Select, Items, LastIndexOf, Distinct;
    match v
    case Invalid =>
    case PowerProduction(p) =>
      AspectPowerProductionRoundTrip(p);
      if AspectPowerProductionToJson(p).Ok? {
        SelectEncoded(AspectLabels, 1, AspectPowerProductionToJson(p).value);
      }
    case Health(p) =>
      AspectHealthRoundTrip(p);
      if AspectHealthToJson(p).Ok? {
        SelectEncoded(AspectLabels, 2, AspectHealthToJson(p).value);
      }
    case _ => assert false;
  }

  /** The round trip for cases 3 to 5, proved apart to keep each proof small. */
  lemma AspectRoundTripPart2(v: Aspect, prior: Aspect)
    requires 3 <= AspectIndex(v) <= 5
    ensures hide *; AspectToJson(v).Ok? <==> AspectEncodable(v)
    ensures hide *; AspectEncodable(v) ==> AspectFromJson(AspectToJson(v).value, prior) == Ok(v)
  {
    AspectLabelsDistinct();
    hide AspectPowerProductionToJson, AspectPowerProductionFromJson, AspectHealthToJson, AspectHealthFromJson, AspectModeChangeToJson, AspectModeChangeFromJson, AspectMountBarrierToJson, AspectMountBarrierFromJson, AspectMountBarrierEncodable, AspectBarrierGateToJson, AspectBarrierGateFromJson, AspectConstructionDataToJson, AspectConstructionDataFromJson, Select, Items, LastIndexOf, Distinct;
    match v
    case Combat => SelectEncoded(AspectLabels, 3, MarkerJson("AspectCombat"));
    case ModeChange(p) =>
      AspectModeChangeRoundTrip(p);
      if AspectModeChangeToJson(p).Ok? {
        SelectEncoded(AspectLabels, 4, AspectModeChangeToJson(p).value);
      }
    case Ammunition => SelectEncoded(AspectLabels, 5, MarkerJson("AspectAmmunition"));
    case _ => assert false;
  }

  /** The round trip for cases 6 to 8, proved apart to keep each proof small. */
  lemma AspectRoundTripPart3(v: Aspect, prior: Aspect)
    requires 6 <= AspectIndex(v) <= 8
    ensures hide *; AspectToJson(v).Ok? <==> AspectEncodable(v)
    ensures hide *; AspectEncodable(v) ==> AspectFromJson(AspectToJson(v).value, prior) == Ok(v)
  {
    AspectLabelsDistinct();
    hide AspectPowerProductionToJson, AspectPowerProductionFromJson, AspectHealthToJson, AspectHealthFromJson, AspectModeChangeToJson, AspectModeChangeFromJson, AspectMountBarrierToJson, AspectMountBarrierFromJson, AspectMountBarrierEncodable, AspectBarrierGateToJson, AspectBarrierGateFromJson, AspectConstructionDataToJson, AspectConstructionDataFromJson, Select, Items, LastIndexOf, Distinct;
    match v
    case SuperWeaponShadow => SelectEncoded(AspectLabels, 6, MarkerJson("AspectSuperWeaponShadow"));
    case WormMovement => SelectEncoded(AspectLabels, 7, MarkerJson("AspectWormMovement"));
    case NPCTag => SelectEncoded(AspectLabels, 8, MarkerJson("AspectNPCTag"));
    case _ => assert false;
  }

  /** The round trip for cases 9 to 11, proved apart to keep each proof small. */
  lemma AspectRoundTripPart4(v: Aspect, prior: Aspect)
    requires 9 <= AspectIndex(v) <= 11
    ensures hide *; AspectToJson(v).Ok? <==> AspectEncodable(v)
    ensures hide *; AspectEncodable(v) ==> AspectFromJson(AspectToJson(v).value, prior) == Ok(v)
  {
    AspectLabelsDistinct();
    hide AspectPowerProductionToJson, AspectPowerProductionFromJson, AspectHealthToJson, AspectHealthFromJson, AspectModeChangeToJson, AspectModeChangeFromJson, AspectMountBarrierToJson, AspectMountBarrierFromJson, AspectMountBarrierEncodable, AspectBarrierGateToJson, AspectBarrierGateFromJson, AspectConstructionDataToJson, AspectConstructionDataFromJson, Select, Items, LastIndexOf, Distinct;
    match v
    case PlayerKit => SelectEncoded(AspectLabels, 9, MarkerJson("AspectPlayerKit"));
    case Loot => SelectEncoded(AspectLabels, 10, MarkerJson("AspectLoot"));
    case Immunity => SelectEncoded(AspectLabels, 11, MarkerJson("AspectImmunity"));
    case _ => assert false;
  }

  /** The round trip for cases 12 to 14, proved apart to keep each proof small. */
  lemma AspectRoundTripPart5(v: Aspect, prior: Aspect)
    requires 12 <= AspectIndex(v) <= 14
    ensures hide *; AspectToJson(v).Ok? <==> AspectEncodable(v)
    ensures hide *; AspectEncodable(v) ==> AspectFromJson(AspectToJson(v).value, prior) == Ok(v)
  {
    AspectLabelsDistinct();
    hide AspectPowerProductionToJson, AspectPowerProductionFromJson, AspectHealthToJson, AspectHealthFromJson, AspectModeChangeToJson, AspectModeChangeFromJson, AspectMountBarrierToJson, AspectMountBarrierFromJson, AspectMountBarrierEncodable, AspectBarrierGateToJson, AspectBarrierGateFromJson, AspectConstructionDataToJson, AspectConstructionDataFromJson, Select, Items, LastIndexOf, Distinct;
    match v
    case Turret => SelectEncoded(AspectLabels, 12, MarkerJson("AspectTurret"));
    case Tunnel => SelectEncoded(AspectLabels, 13, MarkerJson("AspectTunnel"));
    case MountBarrier(p) =>
      AspectMountBarrierRoundTrip(p);
      if AspectMountBarrierToJson(p).Ok? {
        SelectEncoded(AspectLabels, 14, AspectMountBarrierToJson(p).value);
      }
    case _ => assert false;
  }

  /** The round trip for cases 15 to 17, proved apart to keep each proof small. */
  lemma AspectRoundTripPart6(v: Aspect, prior: Aspect)
    requires 15 <= AspectIndex(v) <= 17
    ensures hide *; AspectToJson(v).Ok? <==> AspectEncodable(v)
    ensures hide *; AspectEncodable(v) ==> AspectFromJson(AspectToJson(v).value, prior) == Ok(v)
  {
    AspectLabelsDistinct();
    hide AspectPowerProductionToJson, AspectPowerProductionFromJson, AspectHealthToJson, AspectHealthFromJson, AspectModeChangeToJson, AspectModeChangeFromJson, AspectMountBarrierToJson, AspectMountBarrierFromJson, AspectMountBarrierEncodable, AspectBarrierGateToJson, AspectBarrierGateFromJson, AspectConstructionDataToJson, AspectConstructionDataFromJson, Select, Items, LastIndexOf, Distinct;
    match v
    case SpellMemory => SelectEncoded(AspectLabels, 15, MarkerJson("AspectSpellMemory"));
    case Portal => SelectEncoded(AspectLabels, 16, MarkerJson("AspectPortal"));
    case Hate => SelectEncoded(AspectLabels, 17, MarkerJson("AspectHate"));
    case _ => assert false;
  }

  /** The round trip for cases 18 to 20, proved apart to keep each proof small. */
  lemma AspectRoundTripPart7(v: Aspect, prior: Aspect)
    requires 18 <= AspectIndex(v) <= 20
    ensures hide *; AspectToJson(v).Ok? <==> AspectEncodable(v)
    ensures hide *; AspectEncodable(v) ==> AspectFromJson(AspectToJson(v).value, prior) == Ok(v)
  {
    AspectLabelsDistinct();
    hide AspectPowerProductionToJson, AspectPowerProductionFromJson, AspectHealthToJson, AspectHealthFromJson, AspectModeChangeToJson, AspectModeChangeFromJson, AspectMountBarrierToJson, AspectMountBarrierFromJson, AspectMountBarrierEncodable, AspectBarrierGateToJson, AspectBarrierGateFromJson, AspectConstructionDataToJson, AspectConstructionDataFromJson, Select, Items, LastIndexOf, Distinct;
    match v
    case BarrierGate(p) =>
      AspectBarrierGateRoundTrip(p);
      if AspectBarrierGateToJson(p).Ok? {
        SelectEncoded(AspectLabels, 18, AspectBarrierGateToJson(p).value);
      }
    case Attackable => SelectEncoded(AspectLabels, 19, MarkerJson("AspectAttackable"));
    case SquadRefill => SelectEncoded(AspectLabels, 20, MarkerJson("AspectSquadRefill"));
    case _ => assert false;
  }

  /** The round trip for cases 21 to 23, proved apart to keep each proof small. */
  lemma AspectRoundTripPart8(v: Aspect, prior: Aspect)
    requires 21 <= AspectIndex(v) <= 23
    ensures hide *; AspectToJson(v).Ok? <==> AspectEncodable(v)
    ensures hide *; AspectEncodable(v) ==> AspectFromJson(AspectToJson(v).value, prior) == Ok(v)
  {
    AspectLabelsDistinct();
    hide AspectPowerProductionToJson, AspectPowerProductionFromJson, AspectHealthToJson, AspectHealthFromJson, AspectModeChangeToJson, AspectModeChangeFromJson, AspectMountBarrierToJson, AspectMountBarrierFromJson, AspectMountBarrierEncodable, AspectBarrierGateToJson, AspectBarrierGateFromJson, AspectConstructionDataToJson, AspectConstructionDataFromJson, Select, Items, LastIndexOf, Distinct;
    match v
    case PortalExit => SelectEncoded(AspectLabels, 21, MarkerJson("AspectPortalExit"));
    case ConstructionData(p) =>
      AspectConstructionDataRoundTrip(p);
      if AspectConstructionDataToJson(p).Ok? {
        SelectEncoded(AspectLabels, 22, AspectConstructionDataToJson(p).value);
      }
    case SuperWeaponShadowBomb => SelectEncoded(AspectLabels, 23, MarkerJson("AspectSuperWeaponShadowBomb"));
    case _ => assert false;
  }

  /** The round trip for cases 24 to 26, proved apart to keep each proof small. */
  lemma AspectRoundTripPart9(v: Aspect, prior: Aspect)
    requires 24 <= AspectIndex(v) <= 26
    ensures hide *; AspectToJson(v).Ok? <==> AspectEncodable(v)
    ensures hide *; AspectEncodable(v) ==> AspectFromJson(AspectToJson(v).value, prior) == Ok(v)
  {
    AspectLabelsDistinct();
    hide AspectPowerProductionToJson, AspectPowerProductionFromJson, AspectHealthToJson, AspectHealthFromJson, AspectModeChangeToJson, AspectModeChangeFromJson, AspectMountBarrierToJson, AspectMountBarrierFromJson, AspectMountBarrierEncodable, AspectBarrierGateToJson, AspectBarrierGateFromJson, AspectConstructionDataToJson, AspectConstructionDataFromJson, Select, Items, LastIndexOf, Distinct;
    match v
    case RepairBarrierSet => SelectEncoded(AspectLabels, 24, MarkerJson("AspectRepairBarrierSet"));
    case ConstructionRepair => SelectEncoded(AspectLabels, 25, MarkerJson("AspectConstructionRepair"));
    case Follower => SelectEncoded(AspectLabels, 26, MarkerJson("AspectFollower"));
    case _ => assert false;
  }

  /** The round trip for cases 27 to 29, proved apart to keep each proof small. */
  lemma AspectRoundTripPart10(v: Aspect, prior: Aspect)
    requires 27 <= AspectIndex(v) <= 29
    ensures hide *; AspectToJson(v).Ok? <==> AspectEncodable(v)
    ensures hide *; AspectEncodable(v) ==> AspectFromJson(AspectToJson(v).value, prior) == Ok(v)
  {
    AspectLabelsDistinct();
    hide AspectPowerProductionToJson, AspectPowerProductionFromJson, AspectHealthToJson, AspectHealthFromJson, AspectModeChangeToJson, AspectModeChangeFromJson, AspectMountBarrierToJson, AspectMountBarrierFromJson, AspectMountBarrierEncodable, AspectBarrierGateToJson, AspectBarrierGateFromJson, AspectConstructionDataToJson, AspectConstructionDataFromJson, Select, Items, LastIndexOf, Distinct;
    match v
    case CollisionBase => SelectEncoded(AspectLabels, 27, MarkerJson("AspectCollisionBase"));
    case EditorUniqueID => SelectEncoded(AspectLabels, 28, MarkerJson("AspectEditorUniqueID"));
    case Roam => SelectEncoded(AspectLabels, 29, MarkerJson("AspectRoam"));
    case _ => assert false;
  }

  lemma AspectRoundTrip(v: Aspect, prior: Aspect)
    ensures hide *; AspectToJson(v).Ok? <==> AspectEncodable(v)
    ensures hide *; AspectEncodable(v) ==> AspectFromJson(AspectToJson(v).value, prior) == Ok(v)
  {
    if AspectIndex(v) <= 2 {
      AspectRoundTripPart1(v, prior);
    } else if AspectIndex(v) <= 5 {
      AspectRoundTripPart2(v, prior);
    } else if AspectIndex(v) <= 8 {
      AspectRoundTripPart3(v, prior);
    } else if AspectIndex(v) <= 11 {
      AspectRoundTripPart4(v, prior);
    } else if AspectIndex(v) <= 14 {
      AspectRoundTripPart5(v, prior);
    } else if AspectIndex(v) <= 17 {
      AspectRoundTripPart6(v, prior);
    } else if AspectIndex(v) <= 20 {
      AspectRoundTripPart7(v, prior);
    } else if AspectIndex(v) <= 23 {
      AspectRoundTripPart8(v, prior);
    } else if AspectIndex(v) <= 26 {
      AspectRoundTripPart9(v, prior);
    } else {
      AspectRoundTripPart10(v, prior);
    }
  }

  /** A vector of `Aspect` reads back as written. */
  lemma AspectSeqRoundTrip(s: seq<Aspect>)
    ensures hide *; SeqToJson(s, AspectToJson).Ok? <==> forall i :: 0 <= i < |s| ==> AspectEncodable(s[i])
    ensures hide *; (forall i :: 0 <= i < |s| ==> AspectEncodable(s[i])) ==> SeqFromJson(SeqToJson(s, AspectToJson).value, GetAspect) == Ok(s)
  {
    hide AspectToJson, AspectFromJson, AspectEncodable;
    forall i | 0 <= i < |s|
      ensures AspectToJson(s[i]).Ok? <==> AspectEncodable(s[i])
      ensures AspectEncodable(s[i]) ==> GetAspect(AspectToJson(s[i]).value) == Ok(s[i])
    {
      AspectRoundTrip(s[i], Aspect.Invalid);
    }
    EncodeEachOk(s, AspectToJson);
    if forall i :: 0 <= i < |s| ==> AspectEncodable(s[i]) {
      SeqRoundTrip(s, AspectToJson, GetAspect);
    }
  }

  // Orbs
  datatype Orbs = Orbs(shadow: u8, nature: u8, frost: u8, fire: u8, starting: u8, white: u8, all: u8)

  const DefaultOrbs: Orbs := Orbs(0, 0, 0, 0, 0, 0, 0)

  function OrbsToJson(v: Orbs): Outcome<Json>
  {
    var j1 := Put(Null, "shadow", Int(v.shadow));
    var j2 := Put(j1, "nature", Int(v.nature));
    var j3 := Put(j2, "frost", Int(v.frost));
    var j4 := Put(j3, "fire", Int(v.fire));
    var j5 := Put(j4, "starting", Int(v.starting));
    var j6 := Put(j5, "white", Int(v.white));
    var j7 := Put(j6, "all", Int(v.all));
    Ok(j7)
  }

  function OrbsFromJson(j: Json, prior: Orbs): Outcome<Orbs>
  {
    var shadowJson :- At(j, "shadow");
    var shadow :- U8FromJson(shadowJson);
    var natureJson :- At(j, "nature");
    var nature :- U8FromJson(natureJson);
    var frostJson :- At(j, "frost");
    var frost :- U8FromJson(frostJson);
    var fireJson :- At(j, "fire");
    var fire :- U8FromJson(fireJson);
    var startingJson :- At(j, "starting");
    var starting :- U8FromJson(startingJson);
    var whiteJson :- At(j, "white");
    var white :- U8FromJson(whiteJson);
    var allJson :- At(j, "all");
    var all :- U8FromJson(allJson);
    Ok(Orbs(shadow, nature, frost, fire, starting, white, all))
  }

  function GetOrbs(j: Json): Outcome<Orbs>
  {
    OrbsFromJson(j, DefaultOrbs)
  }

  /** Each key of the encoded object holds its field, as written. */
  lemma OrbsFields(v: Orbs)
    requires OrbsToJson(v).Ok?
    ensures var j := OrbsToJson(v).value;
      && j.Obj?
      && At(j, "shadow") == Ok(Int(v.shadow))
      && At(j, "nature") == Ok(Int(v.nature))
      && At(j, "frost") == Ok(Int(v.frost))
      && At(j, "fire") == Ok(Int(v.fire))
      && At(j, "starting") == Ok(Int(v.starting))
      && At(j, "white") == Ok(Int(v.white))
      && At(j, "all") == Ok(Int(v.all))
  {
    hide Put, PutOptional, Get, At, OptionalAt, SeqToJson, IntegerOf;
  }

  lemma OrbsRoundTrip(v: Orbs)
    ensures OrbsToJson(v).Ok? && OrbsToJson(v).value.Obj?
    ensures GetOrbs(OrbsToJson(v).value) == Ok(v)
  {
    hide Put, PutOptional, Get, At, OptionalAt, EncodeEach, DecodeEach, SeqFromJson, FixedFromJson, IntegerOf, U8FromJson, U16FromJson, U32FromJson, U64FromJson, EnumFromJson, FloatFromJson, BoolFromJson, StringFromJson;
    if OrbsToJson(v).Ok? {
      OrbsFields(v);
      var j := OrbsToJson(v).value;
      hide OrbsToJson;
      assert U8FromJson(Int(v.shadow)) == Ok(v.shadow);
      assert U8FromJson(Int(v.nature)) == Ok(v.nature);
      assert U8FromJson(Int(v.frost)) == Ok(v.frost);
      assert U8FromJson(Int(v.fire)) == Ok(v.fire);
      assert U8FromJson(Int(v.starting)) == Ok(v.starting);
      assert U8FromJson(Int(v.white)) == Ok(v.white);
      assert U8FromJson(Int(v.all)) == Ok(v.all);
      assert GetOrbs(j) == Ok(v);
    }
  }

  // PlayerEntity
  datatype PlayerEntity = PlayerEntity(id: EntityId, effects: seq<AbilityEffect>, aspects: seq<Aspect>, team: u8, power: real, voidPower: real, populationCount: u16, name: string, orbs: Orbs)

  const DefaultPlayerEntity: PlayerEntity := PlayerEntity(0, [], [], 0, 0.0, 0.0, 0, "", DefaultOrbs)

  predicate PlayerEntityEncodable(v: PlayerEntity)
  {
    hide AbilityEffectEncodable, AspectEncodable;
    (forall i :: 0 <= i < |v.effects| ==> AbilityEffectEncodable(v.effects[i]))
    && (forall i :: 0 <= i < |v.aspects| ==> AspectEncodable(v.aspects[i]))
  }

  function PlayerEntityToJson(v: PlayerEntity): Outcome<Json>
  {
    hide AbilityEffectToJson, AspectToJson, OrbsToJson;
    var j1 := Put(Null, "id", Int(v.id));
    var effectsJson :- SeqToJson(v.effects, AbilityEffectToJson);
    var j2 := Put(j1, "effects", effectsJson);
    var aspectsJson :- SeqToJson(v.aspects, AspectToJson);
    var j3 := Put(j2, "aspects", aspectsJson);
    var j4 := Put(j3, "team", Int(v.team));
    var j5 := Put(j4, "power", Float(v.power));
    var j6 := Put(j5, "void_power", Float(v.voidPower));
    var j7 := Put(j6, "population_count", Int(v.populationCount));
    var j8 := Put(j7, "name", Str(v.name));
    var orbsJson :- OrbsToJson(v.orbs);
    var j9 := Put(j8, "orbs", orbsJson);
    Ok(j9)
  }

  function PlayerEntityFromJson(j: Json, prior: PlayerEntity): Outcome<PlayerEntity>
  {
    hide AbilityEffectFromJson, AspectFromJson, OrbsFromJson;
    var idJson :- At(j, "id");
    var id :- U32FromJson(idJson);
    var effectsJson :- At(j, "effects");
    var effects :- SeqFromJson(effectsJson, GetAbilityEffect);
    var aspectsJson :- At(j, "aspects");
    var aspects :- SeqFromJson(aspectsJson, GetAspect);
    var teamJson :- At(j, "team");
    var team :- U8FromJson(teamJson);
    var powerJson :- At(j, "power");
    var power :- FloatFromJson(powerJson);
    var voidPowerJson :- At(j, "void_power");
    var voidPower :- FloatFromJson(voidPowerJson);
    var populationCountJson :- At(j, "population_count");
    var populationCount :- U16FromJson(populationCountJson);
    var nameJson :- At(j, "name");
    var name :- StringFromJson(nameJson);
    var orbsJson :- At(j, "orbs");
    var orbs :- OrbsFromJson(orbsJson, prior.orbs);
    Ok(PlayerEntity(id, effects, aspects, team, power, voidPower, populationCount, name, orbs))
  }

  function GetPlayerEntity(j: Json): Outcome<PlayerEntity>
  {
    PlayerEntityFromJson(j, DefaultPlayerEntity)
  }

  /** Keys of the encoded object, part 1: each holds its field, as written. */
  lemma PlayerEntityFieldsPart1(v: PlayerEntity)
    requires PlayerEntityToJson(v).Ok?
    ensures hide *; var j := PlayerEntityToJson(v).value;
      && j.Obj?
      && At(j, "id") == Ok(Int(v.id))
      && SeqToJson(v.effects, AbilityEffectToJson).Ok?
      && At(j, "effects") == Ok(SeqToJson(v.effects, AbilityEffectToJson).value)
      && SeqToJson(v.aspects, AspectToJson).Ok?
      && At(j, "aspects") == Ok(SeqToJson(v.aspects, AspectToJson).value)
      && At(j, "team") == Ok(Int(v.team))
  {
    hide AbilityEffectToJson, AspectToJson, OrbsToJson, Put, PutOptional, Get, At, OptionalAt, SeqToJson, IntegerOf;
  }

  /** Keys of the encoded object, part 2: each holds its field, as written. */
  lemma PlayerEntityFieldsPart2(v: PlayerEntity)
    requires PlayerEntityToJson(v).Ok?
    ensures hide *; var j := PlayerEntityToJson(v).value;
      && At(j, "power") == Ok(Float(v.power))
      && At(j, "void_power") == Ok(Float(v.voidPower))
      && At(j, "population_count") == Ok(Int(v.populationCount))
      && At(j, "name") == Ok(Str(v.name))
  {
    hide AbilityEffectToJson, AspectToJson, OrbsToJson, Put, PutOptional, Get, At, OptionalAt, SeqToJson, IntegerOf;
  }

  /** Keys of the encoded object, part 3: each holds its field, as written. */
  lemma PlayerEntityFieldsPart3(v: PlayerEntity)
    requires PlayerEntityToJson(v).Ok?
    ensures hide *; var j := PlayerEntityToJson(v).value;
      && OrbsToJson(v.orbs).Ok?
      && At(j, "orbs") == Ok(OrbsToJson(v.orbs).value)
  {
    hide AbilityEffectToJson, AspectToJson, OrbsToJson, Put, PutOptional, Get, At, OptionalAt, SeqToJson, IntegerOf;
  }

  lemma PlayerEntityRoundTrip(v: PlayerEntity)
    ensures hide *; PlayerEntityToJson(v).Ok? <==> PlayerEntityEncodable(v)
    ensures hide *; PlayerEntityToJson(v).Ok? ==> PlayerEntityToJson(v).value.Obj?
    ensures hide *; PlayerEntityEncodable(v) ==> GetPlayerEntity(PlayerEntityToJson(v).value) == Ok(v)
  {
    hide AbilityEffectToJson, AbilityEffectFromJson, AbilityEffectEncodable, AspectToJson, AspectFromJson, AspectEncodable, OrbsToJson, OrbsFromJson, Put, PutOptional, Get, At, OptionalAt, EncodeEach, DecodeEach, SeqFromJson, FixedFromJson, IntegerOf, U8FromJson, U16FromJson, U32FromJson, U64FromJson, EnumFromJson, FloatFromJson, BoolFromJson, StringFromJson;
    AbilityEffectSeqRoundTrip(v.effects);
    AspectSeqRoundTrip(v.aspects);
    OrbsRoundTrip(v.orbs);
    if PlayerEntityToJson(v).Ok? && PlayerEntityEncodable(v) {
      PlayerEntityFieldsPart1(v);
      PlayerEntityFieldsPart2(v);
      PlayerEntityFieldsPart3(v);
      var j := PlayerEntityToJson(v).value;
      hide PlayerEntityToJson;
      assert U32FromJson(Int(v.id)) == Ok(v.id);
      assert U8FromJson(Int(v.team)) == Ok(v.team);
      assert FloatFromJson(Float(v.power)) == Ok(v.power);
      assert FloatFromJson(Float(v.voidPower)) == Ok(v.voidPower);
      assert U16FromJson(Int(v.populationCount)) == Ok(v.populationCount);
      assert StringFromJson(Str(v.name)) == Ok(v.name);
      assert GetPlayerEntity(j) == Ok(v);
    }
  }

  /** A vector of `PlayerEntity` reads back as written. */
  lemma PlayerEntitySeqRoundTrip(s: seq<PlayerEntity>)
    ensures hide *; SeqToJson(s, PlayerEntityToJson).Ok? <==> forall i :: 0 <= i < |s| ==> PlayerEntityEncodable(s[i])
    ensures hide *; (forall i :: 0 <= i < |s| ==> PlayerEntityEncodable(s[i])) ==> SeqFromJson(SeqToJson(s, PlayerEntityToJson).value, GetPlayerEntity) == Ok(s)
  {
    hide PlayerEntityToJson, PlayerEntityFromJson, PlayerEntityEncodable;
    forall i | 0 <= i < |s|
      ensures PlayerEntityToJson(s[i]).Ok? <==> PlayerEntityEncodable(s[i])
      ensures PlayerEntityEncodable(s[i]) ==> GetPlayerEntity(PlayerEntityToJson(s[i]).value) == Ok(s[i])
    {
      PlayerEntityRoundTrip(s[i]);
    }
    EncodeEachOk(s, PlayerEntityToJson);
    if forall i :: 0 <= i < |s| ==> PlayerEntityEncodable(s[i]) {
      SeqRoundTrip(s, PlayerEntityToJson, GetPlayerEntity);
    }
  }

  // MatchPlayer
  datatype MatchPlayer = MatchPlayer(name: string, deck: Deck, entity: PlayerEntity)

  const DefaultMatchPlayer: MatchPlayer := MatchPlayer("", DefaultDeck, DefaultPlayerEntity)

  predicate MatchPlayerEncodable(v: MatchPlayer)
  {
    hide PlayerEntityEncodable;
    PlayerEntityEncodable(v.entity)
  }

  function MatchPlayerToJson(v: MatchPlayer): Outcome<Json>
  {
    hide DeckToJson, PlayerEntityToJson;
    var j1 := Put(Null, "name", Str(v.name));
    var deckJson :- DeckToJson(v.deck);
    var j2 := Put(j1, "deck", deckJson);
    var entityJson :- PlayerEntityToJson(v.entity);
    var j3 := Put(j2, "entity", entityJson);
    Ok(j3)
  }

  function MatchPlayerFromJson(j: Json, prior: MatchPlayer): Outcome<MatchPlayer>
  {
    hide DeckFromJson, PlayerEntityFromJson;
    var nameJson :- At(j, "name");
    var name :- StringFromJson(nameJson);
    var deckJson :- At(j, "deck");
    var deck :- DeckFromJson(deckJson, prior.deck);
    var entityJson :- At(j, "entity");
    var entity :- PlayerEntityFromJson(entityJson, prior.entity);
    Ok(MatchPlayer(name, deck, entity))
  }

  function GetMatchPlayer(j: Json): Outcome<MatchPlayer>
  {
    MatchPlayerFromJson(j, DefaultMatchPlayer)
  }

  /** Each key of the encoded object holds its field, as written. */
  lemma MatchPlayerFields(v: MatchPlayer)
    requires MatchPlayerToJson(v).Ok?
    ensures hide *; var j := MatchPlayerToJson(v).value;
      && j.Obj?
      && At(j, "name") == Ok(Str(v.name))
      && DeckToJson(v.deck).Ok?
      && At(j, "deck") == Ok(DeckToJson(v.deck).value)
      && PlayerEntityToJson(v.entity).Ok?
      && At(j, "entity") == Ok(PlayerEntityToJson(v.entity).value)
  {
    hide DeckToJson, PlayerEntityToJson, Put, PutOptional, Get, At, OptionalAt, SeqToJson, IntegerOf;
  }

  lemma MatchPlayerRoundTrip(v: MatchPlayer)
    ensures hide *; MatchPlayerToJson(v).Ok? <==> MatchPlayerEncodable(v)
    ensures hide *; MatchPlayerToJson(v).Ok? ==> MatchPlayerToJson(v).value.Obj?
    ensures hide *; MatchPlayerEncodable(v) ==> GetMatchPlayer(MatchPlayerToJson(v).value) == Ok(v)
  {
    hide DeckToJson, DeckFromJson, PlayerEntityToJson, PlayerEntityFromJson, PlayerEntityEncodable, Put, PutOptional, Get, At, OptionalAt, EncodeEach, DecodeEach, SeqFromJson, FixedFromJson, IntegerOf, U8FromJson, U16FromJson, U32FromJson, U64FromJson, EnumFromJson, FloatFromJson, BoolFromJson, StringFromJson;
    DeckRoundTrip(v.deck);
    PlayerEntityRoundTrip(v.entity);
    if MatchPlayerToJson(v).Ok? && MatchPlayerEncodable(v) {
      MatchPlayerFields(v);
      var j := MatchPlayerToJson(v).value;
      hide MatchPlayerToJson;
      assert StringFromJson(Str(v.name)) == Ok(v.name);
      assert GetMatchPlayer(j) == Ok(v);
    }
  }

  /** A vector of `MatchPlayer` reads back as written. */
  lemma MatchPlayerSeqRoundTrip(s: seq<MatchPlayer>)
    ensures hide *; SeqToJson(s, MatchPlayerToJson).Ok? <==> forall i :: 0 <= i < |s| ==> MatchPlayerEncodable(s[i])
    ensures hide *; (forall i :: 0 <= i < |s| ==> MatchPlayerEncodable(s[i])) ==> SeqFromJson(SeqToJson(s, MatchPlayerToJson).value, GetMatchPlayer) == Ok(s)
  {
    hide MatchPlayerToJson, MatchPlayerFromJson, MatchPlayerEncodable;
    forall i | 0 <= i < |s|
      ensures MatchPlayerToJson(s[i]).Ok? <==> MatchPlayerEncodable(s[i])
      ensures MatchPlayerEncodable(s[i]) ==> GetMatchPlayer(MatchPlayerToJson(s[i]).value) == Ok(s[i])
    {
      MatchPlayerRoundTrip(s[i]);
    }
    EncodeEachOk(s, MatchPlayerToJson);
    if forall i :: 0 <= i < |s| ==> MatchPlayerEncodable(s[i]) {
      SeqRoundTrip(s, MatchPlayerToJson, GetMatchPlayer);
    }
  }

  // JobGoto
  datatype JobGoto = JobGoto(waypoints: seq<Position2DWithOrientation>, targetEntityId: Option<EntityId>, walkMode: WalkMode)

  const DefaultJobGoto: JobGoto := JobGoto([], None, 0)

  function JobGotoToJson(v: JobGoto): Outcome<Json>
  {
    hide Position2DWithOrientationToJson;
    var waypointsJson :- SeqToJson(v.waypoints, Position2DWithOrientationToJson);
    var j1 := Put(Null, "waypoints", waypointsJson);
    var j2 := PutOptional(j1, "target_entity_id", if v.targetEntityId.Some? then Some(Int(v.targetEntityId.value)) else None);
    var j3 := Put(j2, "walk_mode", Int(v.walkMode));
    Ok(j3)
  }

  function JobGotoFromJson(j: Json, prior: JobGoto): Outcome<JobGoto>
  {
    hide Position2DWithOrientationFromJson;
    var waypointsJson :- At(j, "waypoints");
    var waypoints :- SeqFromJson(waypointsJson, GetPosition2DWithOrientation);
    var targetEntityId :- OptionalAt(j, "target_entity_id", prior.targetEntityId, U32FromJson);
    var walkModeJson :- At(j, "walk_mode");
    var walkMode :- EnumFromJson(walkModeJson);
    Ok(JobGoto(waypoints, targetEntityId, walkMode))
  }

  function GetJobGoto(j: Json): Outcome<JobGoto>
  {
    JobGotoFromJson(j, DefaultJobGoto)
  }

  /** Each key of the encoded object holds its field, as written. */
  lemma JobGotoFields(v: JobGoto)
    requires JobGotoToJson(v).Ok?
    ensures hide *; var j := JobGotoToJson(v).value;
      && j.Obj?
      && SeqToJson(v.waypoints, Position2DWithOrientationToJson).Ok?
      && At(j, "waypoints") == Ok(SeqToJson(v.waypoints, Position2DWithOrientationToJson).value)
      && OptionalAt(j, "target_entity_id", None, U32FromJson) == Ok(v.targetEntityId)
      && At(j, "walk_mode") == Ok(Int(v.walkMode))
  {
    hide Position2DWithOrientationToJson, Put, PutOptional, Get, At, OptionalAt, SeqToJson, IntegerOf;
  }

  lemma JobGotoRoundTrip(v: JobGoto)
    ensures hide *; JobGotoToJson(v).Ok? && JobGotoToJson(v).value.Obj?
    ensures hide *; GetJobGoto(JobGotoToJson(v).value) == Ok(v)
  {
    hide Position2DWithOrientationToJson, Position2DWithOrientationFromJson, Put, PutOptional, Get, At, OptionalAt, EncodeEach, DecodeEach, SeqFromJson, FixedFromJson, IntegerOf, U8FromJson, U16FromJson, U32FromJson, U64FromJson, EnumFromJson, FloatFromJson, BoolFromJson, StringFromJson;
    Position2DWithOrientationSeqRoundTrip(v.waypoints);
    if JobGotoToJson(v).Ok? {
      JobGotoFields(v);
      var j := JobGotoToJson(v).value;
      hide JobGotoToJson;
      assert EnumFromJson(Int(v.walkMode)) == Ok(v.walkMode);
      assert GetJobGoto(j) == Ok(v);
    }
  }

  // JobAttackMelee
  datatype JobAttackMelee = JobAttackMelee(target: Target, useForceGoto: bool, noMove: bool, tooCloseRange: real)

  const DefaultJobAttackMelee: JobAttackMelee := JobAttackMelee(Target.Invalid, false, false, 0.0)

  predicate JobAttackMeleeEncodable(v: JobAttackMelee)
  {
    hide TargetEncodable;
    TargetEncodable(v.target)
  }

  function JobAttackMeleeToJson(v: JobAttackMelee): Outcome<Json>
  {
    hide TargetToJson;
    var targetJson :- TargetToJson(v.target);
    var j1 := Put(Null, "target", targetJson);
    var j2 := Put(j1, "use_force_goto", Bool(v.useForceGoto));
    var j3 := Put(j2, "no_move", Bool(v.noMove));
    var j4 := Put(j3, "too_close_range", Float(v.tooCloseRange));
    Ok(j4)
  }

  function JobAttackMeleeFromJson(j: Json, prior: JobAttackMelee): Outcome<JobAttackMelee>
  {
    hide TargetFromJson;
    var targetJson :- At(j, "target");
    var target :- TargetFromJson(targetJson, prior.target);
    var useForceGotoJson :- At(j, "use_force_goto");
    var useForceGoto :- BoolFromJson(useForceGotoJson);
    var noMoveJson :- At(j, "no_move");
    var noMove :- BoolFromJson(noMoveJson);
    var tooCloseRangeJson :- At(j, "too_close_range");
    var tooCloseRange :- FloatFromJson(tooCloseRangeJson);
    Ok(JobAttackMelee(target, useForceGoto, noMove, tooCloseRange))
  }

  function GetJobAttackMelee(j: Json): Outcome<JobAttackMelee>
  {
    JobAttackMeleeFromJson(j, DefaultJobAttackMelee)
  }

  /** Each key of the encoded object holds its field, as written. */
  lemma JobAttackMeleeFields(v: JobAttackMelee)
    requires JobAttackMeleeToJson(v).Ok?
    ensures hide *; var j := JobAttackMeleeToJson(v).value;
      && j.Obj?
      && TargetToJson(v.target).Ok?
      && At(j, "target") == Ok(TargetToJson(v.target).value)
      && At(j, "use_force_goto") == Ok(Bool(v.useForceGoto))
      && At(j, "no_move") == Ok(Bool(v.noMove))
      && At(j, "too_close_range") == Ok(Float(v.tooCloseRange))
  {
    hide TargetToJson, Put, PutOptional, Get, At, OptionalAt, SeqToJson, IntegerOf;
  }

  lemma JobAttackMeleeRoundTrip(v: JobAttackMelee)
    ensures hide *; JobAttackMeleeToJson(v).Ok? <==> JobAttackMeleeEncodable(v)
    ensures hide *; JobAttackMeleeToJson(v).Ok? ==> JobAttackMeleeToJson(v).value.Obj?
    ensures hide *; JobAttackMeleeEncodable(v) ==> GetJobAttackMelee(JobAttackMeleeToJson(v).value) == Ok(v)
  {
    hide TargetToJson, TargetFromJson, TargetEncodable, Put, PutOptional, Get, At, OptionalAt, EncodeEach, DecodeEach, SeqFromJson, FixedFromJson, IntegerOf, U8FromJson, U16FromJson, U32FromJson, U64FromJson, EnumFromJson, FloatFromJson, BoolFromJson, StringFromJson;
    TargetRoundTrip(v.target, Target.Invalid);
    if JobAttackMeleeToJson(v).Ok? && JobAttackMeleeEncodable(v) {
      JobAttackMeleeFields(v);
      var j := JobAttackMeleeToJson(v).value;
      hide JobAttackMeleeToJson;
      assert BoolFromJson(Bool(v.useForceGoto)) == Ok(v.useForceGoto);
      assert BoolFromJson(Bool(v.noMove)) == Ok(v.noMove);
      assert FloatFromJson(Float(v.tooCloseRange)) == Ok(v.tooCloseRange);
      assert GetJobAttackMelee(j) == Ok(v);
    }
  }

  // JobCastSpell
  datatype JobCastSpell = JobCastSpell(target: Target, spellId: SpellId, useForceGoto: bool, noMove: bool)

  const DefaultJobCastSpell: JobCastSpell := JobCastSpell(Target.Invalid, 0, false, false)

  predicate JobCastSpellEncodable(v: JobCastSpell)
  {
    hide TargetEncodable;
    TargetEncodable(v.target)
  }

  function JobCastSpellToJson(v: JobCastSpell): Outcome<Json>
  {
    hide TargetToJson;
    var targetJson :- TargetToJson(v.target);
    var j1 := Put(Null, "target", targetJson);
    var j2 := Put(j1, "spell_id", Int(v.spellId));
    var j3 := Put(j2, "use_force_goto", Bool(v.useForceGoto));
    var j4 := Put(j3, "no_move", Bool(v.noMove));
    Ok(j4)
  }

  function JobCastSpellFromJson(j: Json, prior: JobCastSpell): Outcome<JobCastSpell>
  {
    hide TargetFromJson;
    var targetJson :- At(j, "target");
    var target :- TargetFromJson(targetJson, prior.target);
    var spellIdJson :- At(j, "spell_id");
    var spellId :- U32FromJson(spellIdJson);
    var useForceGotoJson :- At(j, "use_force_goto");
    var useForceGoto :- BoolFromJson(useForceGotoJson);
    var noMoveJson :- At(j, "no_move");
    var noMove :- BoolFromJson(noMoveJson);
    Ok(JobCastSpell(target, spellId, useForceGoto, noMove))
  }

  function GetJobCastSpell(j: Json): Outcome<JobCastSpell>
  {
    JobCastSpellFromJson(j, DefaultJobCastSpell)
  }

  /** Each key of the encoded object holds its field, as written. */
  lemma JobCastSpellFields(v: JobCastSpell)
    requires JobCastSpellToJson(v).Ok?
    ensures hide *; var j := JobCastSpellToJson(v).value;
      && j.Obj?
      && TargetToJson(v.target).Ok?
      && At(j, "target") == Ok(TargetToJson(v.target).value)
      && At(j, "spell_id") == Ok(Int(v.spellId))
      && At(j, "use_force_goto") == Ok(Bool(v.useForceGoto))
      && At(j, "no_move") == Ok(Bool(v.noMove))
  {
    hide TargetToJson, Put, PutOptional, Get, At, OptionalAt, SeqToJson, IntegerOf;
  }

  lemma JobCastSpellRoundTrip(v: JobCastSpell)
    ensures hide *; JobCastSpellToJson(v).Ok? <==> JobCastSpellEncodable(v)
    ensures hide *; JobCastSpellToJson(v).Ok? ==> JobCastSpellToJson(v).value.Obj?
    ensures hide *; JobCastSpellEncodable(v) ==> GetJobCastSpell(JobCastSpellToJson(v).value) == Ok(v)
  {
    hide TargetToJson, TargetFromJson, TargetEncodable, Put, PutOptional, Get, At, OptionalAt, EncodeEach, DecodeEach, SeqFromJson, FixedFromJson, IntegerOf, U8FromJson, U16FromJson, U32FromJson, U64FromJson, EnumFromJson, FloatFromJson, BoolFromJson, StringFromJson;
    TargetRoundTrip(v.target, Target.Invalid);
    if JobCastSpellToJson(v).Ok? && JobCastSpellEncodable(v) {
      JobCastSpellFields(v);
      var j := JobCastSpellToJson(v).value;
      hide JobCastSpellToJson;
      assert U32FromJson(Int(v.spellId)) == Ok(v.spellId);
      assert BoolFromJson(Bool(v.useForceGoto)) == Ok(v.useForceGoto);
      assert BoolFromJson(Bool(v.noMove)) == Ok(v.noMove);
      assert GetJobCastSpell(j) == Ok(v);
    }
  }

  // JobTalk
  datatype JobTalk = JobTalk(target: EntityId, walkToTarget: bool)

  const DefaultJobTalk: JobTalk := JobTalk(0, false)

  function JobTalkToJson(v: JobTalk): Outcome<Json>
  {
    var j1 := Put(Null, "target", Int(v.target));
    var j2 := Put(j1, "walk_to_target", Bool(v.walkToTarget));
    Ok(j2)
  }

  function JobTalkFromJson(j: Json, prior: JobTalk): Outcome<JobTalk>
  {
    var targetJson :- At(j, "target");
    var target :- U32FromJson(targetJson);
    var walkToTargetJson :- At(j, "walk_to_target");
    var walkToTarget :- BoolFromJson(walkToTargetJson);
    Ok(JobTalk(target, walkToTarget))
  }

  function GetJobTalk(j: Json): Outcome<JobTalk>
  {
    JobTalkFromJson(j, DefaultJobTalk)
  }

  lemma JobTalkRoundTrip(v: JobTalk)
    ensures JobTalkToJson(v).Ok? && JobTalkToJson(v).value.Obj?
    ensures GetJobTalk(JobTalkToJson(v).value) == Ok(v)
  {
    hide Put, PutOptional, Get, At, OptionalAt, EncodeEach, DecodeEach, SeqFromJson, FixedFromJson, IntegerOf, U8FromJson, U16FromJson, U32FromJson, U64FromJson, EnumFromJson, FloatFromJson, BoolFromJson, StringFromJson;
  }

  // JobScriptTalk
  datatype JobScriptTalk = JobScriptTalk(hideWeapon: bool)

  const DefaultJobScriptTalk: JobScriptTalk := JobScriptTalk(false)

  function JobScriptTalkToJson(v: JobScriptTalk): Outcome<Json>
  {
    var j1 := Put(Null, "hide_weapon", Bool(v.hideWeapon));
    Ok(j1)
  }

  function JobScriptTalkFromJson(j: Json, prior: JobScriptTalk): Outcome<JobScriptTalk>
  {
    var hideWeaponJson :- At(j, "hide_weapon");
    var hideWeapon :- BoolFromJson(hideWeaponJson);
    Ok(JobScriptTalk(hideWeapon))
  }

  function GetJobScriptTalk(j: Json): Outcome<JobScriptTalk>
  {
    JobScriptTalkFromJson(j, DefaultJobScriptTalk)
  }

  lemma JobScriptTalkRoundTrip(v: JobScriptTalk)
    ensures JobScriptTalkToJson(v).Ok? && JobScriptTalkToJson(v).value.Obj?
    ensures GetJobScriptTalk(JobScriptTalkToJson(v).value) == Ok(v)
  {
    hide Put, PutOptional, Get, At, OptionalAt, EncodeEach, DecodeEach, SeqFromJson, FixedFromJson, IntegerOf, U8FromJson, U16FromJson, U32FromJson, U64FromJson, EnumFromJson, FloatFromJson, BoolFromJson, StringFromJson;
  }

  // JobFreeze
  datatype JobFreeze = JobFreeze(endStep: Tick, source: EntityId, spellId: SpellId, duration: TickCount, delayAbility: TickCount, abilityIdWhileFrozen: seq<AbilityId>, abilityIdDelayed: seq<AbilityId>, abilityLineIdCancelOnStart: AbilityLine, pushbackImmunity: bool, mode: u32)

  const DefaultJobFreeze: JobFreeze := JobFreeze(0, 0, 0, 0, 0, [], [], 0, false, 0)

  function JobFreezeToJson(v: JobFreeze): Outcome<Json>
  {
    var j1 := Put(Null, "end_step", Int(v.endStep));
    var j2 := Put(j1, "source", Int(v.source));
    var j3 := Put(j2, "spell_id", Int(v.spellId));
    var j4 := Put(j3, "duration", Int(v.duration));
    var j5 := Put(j4, "delay_ability", Int(v.delayAbility));
    var abilityIdWhileFrozenJson :- SeqToJson(v.abilityIdWhileFrozen, U32ToJson);
    var j6 := Put(j5, "ability_id_while_frozen", abilityIdWhileFrozenJson);
    var abilityIdDelayedJson :- SeqToJson(v.abilityIdDelayed, U32ToJson);
    var j7 := Put(j6, "ability_id_delayed", abilityIdDelayedJson);
    var j8 := Put(j7, "ability_line_id_cancel_on_start", Int(v.abilityLineIdCancelOnStart));
    var j9 := Put(j8, "pushback_immunity", Bool(v.pushbackImmunity));
    var j10 := Put(j9, "mode", Int(v.mode));
    Ok(j10)
  }

  function JobFreezeFromJson(j: Json, prior: JobFreeze): Outcome<JobFreeze>
  {
    var endStepJson :- At(j, "end_step");
    var endStep :- U32FromJson(endStepJson);
    var sourceJson :- At(j, "source");
    var source :- U32FromJson(sourceJson);
    var spellIdJson :- At(j, "spell_id");
    var spellId :- U32FromJson(spellIdJson);
    var durationJson :- At(j, "duration");
    var duration :- U32FromJson(durationJson);
    var delayAbilityJson :- At(j, "delay_ability");
    var delayAbility :- U32FromJson(delayAbilityJson);
    var abilityIdWhileFrozenJson :- At(j, "ability_id_while_frozen");
    var abilityIdWhileFrozen :- SeqFromJson(abilityIdWhileFrozenJson, U32FromJson);
    var abilityIdDelayedJson :- At(j, "ability_id_delayed");
    var abilityIdDelayed :- SeqFromJson(abilityIdDelayedJson, U32FromJson);
    var abilityLineIdCancelOnStartJson :- At(j, "ability_line_id_cancel_on_start");
    var abilityLineIdCancelOnStart :- EnumFromJson(abilityLineIdCancelOnStartJson);
    var pushbackImmunityJson :- At(j, "pushback_immunity");
    var pushbackImmunity :- BoolFromJson(pushbackImmunityJson);
    var modeJson :- At(j, "mode");
    var mode :- U32FromJson(modeJson);
    Ok(JobFreeze(endStep, source, spellId, duration, delayAbility, abilityIdWhileFrozen, abilityIdDelayed, abilityLineIdCancelOnStart, pushbackImmunity, mode))
  }

  function GetJobFreeze(j: Json): Outcome<JobFreeze>
  {
    JobFreezeFromJson(j, DefaultJobFreeze)
  }

  /** Keys of the encoded object, part 1: each holds its field, as written. */
  lemma JobFreezeFieldsPart1(v: JobFreeze)
    requires JobFreezeToJson(v).Ok?
    ensures var j := JobFreezeToJson(v).value;
      && j.Obj?
      && At(j, "end_step") == Ok(Int(v.endStep))
      && At(j, "source") == Ok(Int(v.source))
      && At(j, "spell_id") == Ok(Int(v.spellId))
      && At(j, "duration") == Ok(Int(v.duration))
  {
    hide Put, PutOptional, Get, At, OptionalAt, SeqToJson, IntegerOf;
  }

  /** Keys of the encoded object, part 2: each holds its field, as written. */
  lemma JobFreezeFieldsPart2(v: JobFreeze)
    requires JobFreezeToJson(v).Ok?
    ensures var j := JobFreezeToJson(v).value;
      && At(j, "delay_ability") == Ok(Int(v.delayAbility))
      && SeqToJson(v.abilityIdWhileFrozen, U32ToJson).Ok?
      && At(j, "ability_id_while_frozen") == Ok(SeqToJson(v.abilityIdWhileFrozen, U32ToJson).value)
      && SeqToJson(v.abilityIdDelayed, U32ToJson).Ok?
      && At(j, "ability_id_delayed") == Ok(SeqToJson(v.abilityIdDelayed, U32ToJson).value)
      && At(j, "ability_line_id_cancel_on_start") == Ok(Int(v.abilityLineIdCancelOnStart))
  {
    hide Put, PutOptional, Get, At, OptionalAt, SeqToJson, IntegerOf;
  }

  /** Keys of the encoded object, part 3: each holds its field, as written. */
  lemma JobFreezeFieldsPart3(v: JobFreeze)
    requires JobFreezeToJson(v).Ok?
    ensures var j := JobFreezeToJson(v).value;
      && At(j, "pushback_immunity") == Ok(Bool(v.pushbackImmunity))
      && At(j, "mode") == Ok(Int(v.mode))
  {
    hide Put, PutOptional, Get, At, OptionalAt, SeqToJson, IntegerOf;
  }

  lemma JobFreezeRoundTrip(v: JobFreeze)
    ensures JobFreezeToJson(v).Ok? && JobFreezeToJson(v).value.Obj?
    ensures GetJobFreeze(JobFreezeToJson(v).value) == Ok(v)
  {
    hide Put, PutOptional, Get, At, OptionalAt, EncodeEach, DecodeEach, SeqFromJson, FixedFromJson, IntegerOf, U8FromJson, U16FromJson, U32FromJson, U64FromJson, EnumFromJson, FloatFromJson, BoolFromJson, StringFromJson;
    SeqRoundTrip(v.abilityIdWhileFrozen, U32ToJson, U32FromJson);
    SeqRoundTrip(v.abilityIdDelayed, U32ToJson, U32FromJson);
    if JobFreezeToJson(v).Ok? {
      JobFreezeFieldsPart1(v);
      JobFreezeFieldsPart2(v);
      JobFreezeFieldsPart3(v);
      var j := JobFreezeToJson(v).value;
      hide JobFreezeToJson;
      assert U32FromJson(Int(v.endStep)) == Ok(v.endStep);
      assert U32FromJson(Int(v.source)) == Ok(v.source);
      assert U32FromJson(Int(v.spellId)) == Ok(v.spellId);
      assert U32FromJson(Int(v.duration)) == Ok(v.duration);
      assert U32FromJson(Int(v.delayAbility)) == Ok(v.delayAbility);
      assert EnumFromJson(Int(v.abilityLineIdCancelOnStart)) == Ok(v.abilityLineIdCancelOnStart);
      assert BoolFromJson(Bool(v.pushbackImmunity)) == Ok(v.pushbackImmunity);
      assert U32FromJson(Int(v.mode)) == Ok(v.mode);
      assert GetJobFreeze(j) == Ok(v);
    }
  }

  // JobSpawn
  datatype JobSpawn = JobSpawn(duration: TickCount, endStep: Tick)

  const DefaultJobSpawn: JobSpawn := JobSpawn(0, 0)

  function JobSpawnToJson(v: JobSpawn): Outcome<Json>
  {
    var j1 := Put(Null, "duration", Int(v.duration));
    var j2 := Put(j1, "end_step", Int(v.endStep));
    Ok(j2)
  }

  function JobSpawnFromJson(j: Json, prior: JobSpawn): Outcome<JobSpawn>
  {
    var durationJson :- At(j, "duration");
    var duration :- U32FromJson(durationJson);
    var endStepJson :- At(j, "end_step");
    var endStep :- U32FromJson(endStepJson);
    Ok(JobSpawn(duration, endStep))
  }

  function GetJobSpawn(j: Json): Outcome<JobSpawn>
  {
    JobSpawnFromJson(j, DefaultJobSpawn)
  }

  lemma JobSpawnRoundTrip(v: JobSpawn)
    ensures JobSpawnToJson(v).Ok? && JobSpawnToJson(v).value.Obj?
    ensures GetJobSpawn(JobSpawnToJson(v).value) == Ok(v)
  {
    hide Put, PutOptional, Get, At, OptionalAt, EncodeEach, DecodeEach, SeqFromJson, FixedFromJson, IntegerOf, U8FromJson, U16FromJson, U32FromJson, U64FromJson, EnumFromJson, FloatFromJson, BoolFromJson, StringFromJson;
  }

  // JobAttackSquad
  datatype JobAttackSquad = JobAttackSquad(target: Target, weaponType: u8, damage: real, rangeMin: real, rangeMax: real, attackSpell: Option<SpellId>, useForceGoto: bool, operationRange: real, noMove: bool, wasInAttack: bool, meleeAttack: bool)

  const DefaultJobAttackSquad: JobAttackSquad := JobAttackSquad(Target.Invalid, 0, 0.0, 0.0, 0.0, None, false, 0.0, false, false, false)

  predicate JobAttackSquadEncodable(v: JobAttackSquad)
  {
    hide TargetEncodable;
    TargetEncodable(v.target)
  }

  function JobAttackSquadToJson(v: JobAttackSquad): Outcome<Json>
  {
    hide TargetToJson;
    var targetJson :- TargetToJson(v.target);
    var j1 := Put(Null, "target", targetJson);
    var j2 := Put(j1, "weapon_type", Int(v.weaponType));
    var j3 := Put(j2, "damage", Float(v.damage));
    var j4 := Put(j3, "range_min", Float(v.rangeMin));
    var j5 := Put(j4, "range_max", Float(v.rangeMax));
    var j6 := PutOptional(j5, "attack_spell", if v.attackSpell.Some? then Some(Int(v.attackSpell.value)) else None);
    var j7 := Put(j6, "use_force_goto", Bool(v.useForceGoto));
    var j8 := Put(j7, "operation_range", Float(v.operationRange));
    var j9 := Put(j8, "no_move", Bool(v.noMove));
    var j10 := Put(j9, "was_in_attack", Bool(v.wasInAttack));
    var j11 := Put(j10, "melee_attack", Bool(v.meleeAttack));
    Ok(j11)
  }

  function JobAttackSquadFromJson(j: Json, prior: JobAttackSquad): Outcome<JobAttackSquad>
  {
    hide TargetFromJson;
    var targetJson :- At(j, "target");
    var target :- TargetFromJson(targetJson, prior.target);
    var weaponTypeJson :- At(j, "weapon_type");
    var weaponType :- U8FromJson(weaponTypeJson);
    var damageJson :- At(j, "damage");
    var damage :- FloatFromJson(damageJson);
    var rangeMinJson :- At(j, "range_min");
    var rangeMin :- FloatFromJson(rangeMinJson);
    var rangeMaxJson :- At(j, "range_max");
    var rangeMax :- FloatFromJson(rangeMaxJson);
    var attackSpell :- OptionalAt(j, "attack_spell", prior.attackSpell, U32FromJson);
    var useForceGotoJson :- At(j, "use_force_goto");
    var useForceGoto :- BoolFromJson(useForceGotoJson);
    var operationRangeJson :- At(j, "operation_range");
    var operationRange :- FloatFromJson(operationRangeJson);
    var noMoveJson :- At(j, "no_move");
    var noMove :- BoolFromJson(noMoveJson);
    var wasInAttackJson :- At(j, "was_in_attack");
    var wasInAttack :- BoolFromJson(wasInAttackJson);
    var meleeAttackJson :- At(j, "melee_attack");
    var meleeAttack :- BoolFromJson(meleeAttackJson);
    Ok(JobAttackSquad(target, weaponType, damage, rangeMin, rangeMax, attackSpell, useForceGoto, operationRange, noMove, wasInAttack, meleeAttack))
  }

  function GetJobAttackSquad(j: Json): Outcome<JobAttackSquad>
  {
    JobAttackSquadFromJson(j, DefaultJobAttackSquad)
  }

  /** Keys of the encoded object, part 1: each holds its field, as written. */
  lemma JobAttackSquadFieldsPart1(v: JobAttackSquad)
    requires JobAttackSquadToJson(v).Ok?
    ensures hide *; var j := JobAttackSquadToJson(v).value;
      && j.Obj?
      && TargetToJson(v.target).Ok?
      && At(j, "target") == Ok(TargetToJson(v.target).value)
      && At(j, "weapon_type") == Ok(Int(v.weaponType))
      && At(j, "damage") == Ok(Float(v.damage))
      && At(j, "range_min") == Ok(Float(v.rangeMin))
  {
    hide TargetToJson, Put, PutOptional, Get, At, OptionalAt, SeqToJson, IntegerOf;
  }

  /** Keys of the encoded object, part 2: each holds its field, as written. */
  lemma JobAttackSquadFieldsPart2(v: JobAttackSquad)
    requires JobAttackSquadToJson(v).Ok?
    ensures hide *; var j := JobAttackSquadToJson(v).value;
      && At(j, "range_max") == Ok(Float(v.rangeMax))
      && OptionalAt(j, "attack_spell", None, U32FromJson) == Ok(v.attackSpell)
      && At(j, "use_force_goto") == Ok(Bool(v.useForceGoto))
  {
    hide TargetToJson, Put, PutOptional, Get, At, OptionalAt, SeqToJson, IntegerOf;
  }

  /** Keys of the encoded object, part 3: each holds its field, as written. */
  lemma JobAttackSquadFieldsPart3(v: JobAttackSquad)
    requires JobAttackSquadToJson(v).Ok?
    ensures hide *; var j := JobAttackSquadToJson(v).value;
      && At(j, "operation_range") == Ok(Float(v.operationRange))
      && At(j, "no_move") == Ok(Bool(v.noMove))
      && At(j, "was_in_attack") == Ok(Bool(v.wasInAttack))
      && At(j, "melee_attack") == Ok(Bool(v.meleeAttack))
  {
    hide TargetToJson, Put, PutOptional, Get, At, OptionalAt, SeqToJson, IntegerOf;
  }

  lemma JobAttackSquadRoundTrip(v: JobAttackSquad)
    ensures hide *; JobAttackSquadToJson(v).Ok? <==> JobAttackSquadEncodable(v)
    ensures hide *; JobAttackSquadToJson(v).Ok? ==> JobAttackSquadToJson(v).value.Obj?
    ensures hide *; JobAttackSquadEncodable(v) ==> GetJobAttackSquad(JobAttackSquadToJson(v).value) == Ok(v)
  {
    hide TargetToJson, TargetFromJson, TargetEncodable, Put, PutOptional, Get, At, OptionalAt, EncodeEach, DecodeEach, SeqFromJson, FixedFromJson, IntegerOf, U8FromJson, U16FromJson, U32FromJson, U64FromJson, EnumFromJson, FloatFromJson, BoolFromJson, StringFromJson;
    TargetRoundTrip(v.target, Target.Invalid);
    if JobAttackSquadToJson(v).Ok? && JobAttackSquadEncodable(v) {
      JobAttackSquadFieldsPart1(v);
      JobAttackSquadFieldsPart2(v);
      JobAttackSquadFieldsPart3(v);
      var j := JobAttackSquadToJson(v).value;
      hide JobAttackSquadToJson;
      assert U8FromJson(Int(v.weaponType)) == Ok(v.weaponType);
      assert FloatFromJson(Float(v.damage)) == Ok(v.damage);
      assert FloatFromJson(Float(v.rangeMin)) == Ok(v.rangeMin);
      assert FloatFromJson(Float(v.rangeMax)) == Ok(v.rangeMax);
      assert BoolFromJson(Bool(v.useForceGoto)) == Ok(v.useForceGoto);
      assert FloatFromJson(Float(v.operationRange)) == Ok(v.operationRange);
      assert BoolFromJson(Bool(v.noMove)) == Ok(v.noMove);
      assert BoolFromJson(Bool(v.wasInAttack)) == Ok(v.wasInAttack);
      assert BoolFromJson(Bool(v.meleeAttack)) == Ok(v.meleeAttack);
      assert GetJobAttackSquad(j) == Ok(v);
    }
  }

  // JobCastSpellSquad
  datatype JobCastSpellSquad = JobCastSpellSquad(target: Target, spellId: SpellId, useForceGoto: bool, spellFired: bool, spellPerSourceEntity: bool, wasInAttack: bool)

  const DefaultJobCastSpellSquad: JobCastSpellSquad := JobCastSpellSquad(Target.Invalid, 0, false, false, false, false)

  predicate JobCastSpellSquadEncodable(v: JobCastSpellSquad)
  {
    hide TargetEncodable;
    TargetEncodable(v.target)
  }

  function JobCastSpellSquadToJson(v: JobCastSpellSquad): Outcome<Json>
  {
    hide TargetToJson;
    var targetJson :- TargetToJson(v.target);
    var j1 := Put(Null, "target", targetJson);
    var j2 := Put(j1, "spell_id", Int(v.spellId));
    var j3 := Put(j2, "use_force_goto", Bool(v.useForceGoto));
    var j4 := Put(j3, "spell_fired", Bool(v.spellFired));
    var j5 := Put(j4, "spell_per_source_entity", Bool(v.spellPerSourceEntity));
    var j6 := Put(j5, "was_in_attack", Bool(v.wasInAttack));
    Ok(j6)
  }

  function JobCastSpellSquadFromJson(j: Json, prior: JobCastSpellSquad): Outcome<JobCastSpellSquad>
  {
    hide TargetFromJson;
    var targetJson :- At(j, "target");
    var target :- TargetFromJson(targetJson, prior.target);
    var spellIdJson :- At(j, "spell_id");
    var spellId :- U32FromJson(spellIdJson);
    var useForceGotoJson :- At(j, "use_force_goto");
    var useForceGoto :- BoolFromJson(useForceGotoJson);
    var spellFiredJson :- At(j, "spell_fired");
    var spellFired :- BoolFromJson(spellFiredJson);
    var spellPerSourceEntityJson :- At(j, "spell_per_source_entity");
    var spellPerSourceEntity :- BoolFromJson(spellPerSourceEntityJson);
    var wasInAttackJson :- At(j, "was_in_attack");
    var wasInAttack :- BoolFromJson(wasInAttackJson);
    Ok(JobCastSpellSquad(target, spellId, useForceGoto, spellFired, spellPerSourceEntity, wasInAttack))
  }

  function GetJobCastSpellSquad(j: Json): Outcome<JobCastSpellSquad>
  {
    JobCastSpellSquadFromJson(j, DefaultJobCastSpellSquad)
  }

  /** Each key of the encoded object holds its field, as written. */
  lemma JobCastSpellSquadFields(v: JobCastSpellSquad)
    requires JobCastSpellSquadToJson(v).Ok?
    ensures hide *; var j := JobCastSpellSquadToJson(v).value;
      && j.Obj?
      && TargetToJson(v.target).Ok?
      && At(j, "target") == Ok(TargetToJson(v.target).value)
      && At(j, "spell_id") == Ok(Int(v.spellId))
      && At(j, "use_force_goto") == Ok(Bool(v.useForceGoto))
      && At(j, "spell_fired") == Ok(Bool(v.spellFired))
      && At(j, "spell_per_source_entity") == Ok(Bool(v.spellPerSourceEntity))
      && At(j, "was_in_attack") == Ok(Bool(v.wasInAttack))
  {
    hide TargetToJson, Put, PutOptional, Get, At, OptionalAt, SeqToJson, IntegerOf;
  }

  lemma JobCastSpellSquadRoundTrip(v: JobCastSpellSquad)
    ensures hide *; JobCastSpellSquadToJson(v).Ok? <==> JobCastSpellSquadEncodable(v)
    ensures hide *; JobCastSpellSquadToJson(v).Ok? ==> JobCastSpellSquadToJson(v).value.Obj?
    ensures hide *; JobCastSpellSquadEncodable(v) ==> GetJobCastSpellSquad(JobCastSpellSquadToJson(v).value) == Ok(v)
  {
    hide TargetToJson, TargetFromJson, TargetEncodable, Put, PutOptional, Get, At, OptionalAt, EncodeEach, DecodeEach, SeqFromJson, FixedFromJson, IntegerOf, U8FromJson, U16FromJson, U32FromJson, U64FromJson, EnumFromJson, FloatFromJson, BoolFromJson, StringFromJson;
    TargetRoundTrip(v.target, Target.Invalid);
    if JobCastSpellSquadToJson(v).Ok? && JobCastSpellSquadEncodable(v) {
      JobCastSpellSquadFields(v);
      var j := JobCastSpellSquadToJson(v).value;
      hide JobCastSpellSquadToJson;
      assert U32FromJson(Int(v.spellId)) == Ok(v.spellId);
      assert BoolFromJson(Bool(v.useForceGoto)) == Ok(v.useForceGoto);
      assert BoolFromJson(Bool(v.spellFired)) == Ok(v.spellFired);
      assert BoolFromJson(Bool(v.spellPerSourceEntity)) == Ok(v.spellPerSourceEntity);
      assert BoolFromJson(Bool(v.wasInAttack)) == Ok(v.wasInAttack);
      assert GetJobCastSpellSquad(j) == Ok(v);
    }
  }

  // JobPushBack
  datatype JobPushBack = JobPushBack(startCoord: Position2D, targetCoord: Position2D, speed: real, rotationSpeed: real, damage: Option<real>, source: Option<EntityId>)

  const DefaultJobPushBack: JobPushBack := JobPushBack(DefaultPosition2D, DefaultPosition2D, 0.0, 0.0, None, None)

  function JobPushBackToJson(v: JobPushBack): Outcome<Json>
  {
    hide Position2DToJson;
    var startCoordJson :- Position2DToJson(v.startCoord);
    var j1 := Put(Null, "start_coord", startCoordJson);
    var targetCoordJson :- Position2DToJson(v.targetCoord);
    var j2 := Put(j1, "target_coord", targetCoordJson);
    var j3 := Put(j2, "speed", Float(v.speed));
    var j4 := Put(j3, "rotation_speed", Float(v.rotationSpeed));
    var j5 := PutOptional(j4, "damage", if v.damage.Some? then Some(Float(v.damage.value)) else None);
    var j6 := PutOptional(j5, "source", if v.source.Some? then Some(Int(v.source.value)) else None);
    Ok(j6)
  }

  function JobPushBackFromJson(j: Json, prior: JobPushBack): Outcome<JobPushBack>
  {
    hide Position2DFromJson;
    var startCoordJson :- At(j, "start_coord");
    var startCoord :- Position2DFromJson(startCoordJson, prior.startCoord);
    var targetCoordJson :- At(j, "target_coord");
    var targetCoord :- Position2DFromJson(targetCoordJson, prior.targetCoord);
    var speedJson :- At(j, "speed");
    var speed :- FloatFromJson(speedJson);
    var rotationSpeedJson :- At(j, "rotation_speed");
    var rotationSpeed :- FloatFromJson(rotationSpeedJson);
    var damage :- OptionalAt(j, "damage", prior.damage, FloatFromJson);
    var source :- OptionalAt(j, "source", prior.source, U32FromJson);
    Ok(JobPushBack(startCoord, targetCoord, speed, rotationSpeed, damage, source))
  }

  function GetJobPushBack(j: Json): Outcome<JobPushBack>
  {
    JobPushBackFromJson(j, DefaultJobPushBack)
  }

  /** Each key of the encoded object holds its field, as written. */
  lemma JobPushBackFields(v: JobPushBack)
    requires JobPushBackToJson(v).Ok?
    ensures hide *; var j := JobPushBackToJson(v).value;
      && j.Obj?
      && Position2DToJson(v.startCoord).Ok?
      && At(j, "start_coord") == Ok(Position2DToJson(v.startCoord).value)
      && Position2DToJson(v.targetCoord).Ok?
      && At(j, "target_coord") == Ok(Position2DToJson(v.targetCoord).value)
      && At(j, "speed") == Ok(Float(v.speed))
      && At(j, "rotation_speed") == Ok(Float(v.rotationSpeed))
      && OptionalAt(j, "damage", None, FloatFromJson) == Ok(v.damage)
      && OptionalAt(j, "source", None, U32FromJson) == Ok(v.source)
  {
    hide Position2DToJson, Put, PutOptional, Get, At, OptionalAt, SeqToJson, IntegerOf;
  }

  lemma JobPushBackRoundTrip(v: JobPushBack)
    ensures hide *; JobPushBackToJson(v).Ok? && JobPushBackToJson(v).value.Obj?
    ensures hide *; GetJobPushBack(JobPushBackToJson(v).value) == Ok(v)
  {
    hide Position2DToJson, Position2DFromJson, Put, PutOptional, Get, At, OptionalAt, EncodeEach, DecodeEach, SeqFromJson, FixedFromJson, IntegerOf, U8FromJson, U16FromJson, U32FromJson, U64FromJson, EnumFromJson, FloatFromJson, BoolFromJson, StringFromJson;
    Position2DRoundTrip(v.startCoord);
    Position2DRoundTrip(v.targetCoord);
    if JobPushBackToJson(v).Ok? {
      JobPushBackFields(v);
      var j := JobPushBackToJson(v).value;
      hide JobPushBackToJson;
      assert FloatFromJson(Float(v.speed)) == Ok(v.speed);
      assert FloatFromJson(Float(v.rotationSpeed)) == Ok(v.rotationSpeed);
      assert GetJobPushBack(j) == Ok(v);
    }
  }

  // JobStampede
  datatype JobStampede = JobStampede(spell: SpellId, target: Target, startCoord: Position2D)

  const DefaultJobStampede: JobStampede := JobStampede(0, Target.Invalid, DefaultPosition2D)

  predicate JobStampedeEncodable(v: JobStampede)
  {
    hide TargetEncodable;
    TargetEncodable(v.target)
  }

  function JobStampedeToJson(v: JobStampede): Outcome<Json>
  {
    hide TargetToJson, Position2DToJson;
    var j1 := Put(Null, "spell", Int(v.spell));
    var targetJson :- TargetToJson(v.target);
    var j2 := Put(j1, "target", targetJson);
    var startCoordJson :- Position2DToJson(v.startCoord);
    var j3 := Put(j2, "start_coord", startCoordJson);
    Ok(j3)
  }

  function JobStampedeFromJson(j: Json, prior: JobStampede): Outcome<JobStampede>
  {
    hide TargetFromJson, Position2DFromJson;
    var spellJson :- At(j, "spell");
    var spell :- U32FromJson(spellJson);
    var targetJson :- At(j, "target");
    var target :- TargetFromJson(targetJson, prior.target);
    var startCoordJson :- At(j, "start_coord");
    var startCoord :- Position2DFromJson(startCoordJson, prior.startCoord);
    Ok(JobStampede(spell, target, startCoord))
  }

  function GetJobStampede(j: Json): Outcome<JobStampede>
  {
    JobStampedeFromJson(j, DefaultJobStampede)
  }

  /** Each key of the encoded object holds its field, as written. */
  lemma JobStampedeFields(v: JobStampede)
    requires JobStampedeToJson(v).Ok?
    ensures hide *; var j := JobStampedeToJson(v).value;
      && j.Obj?
      && At(j, "spell") == Ok(Int(v.spell))
      && TargetToJson(v.target).Ok?
      && At(j, "target") == Ok(TargetToJson(v.target).value)
      && Position2DToJson(v.startCoord).Ok?
      && At(j, "start_coord") == Ok(Position2DToJson(v.startCoord).value)
  {
    hide TargetToJson, Position2DToJson, Put, PutOptional, Get, At, OptionalAt, SeqToJson, IntegerOf;
  }

  lemma JobStampedeRoundTrip(v: JobStampede)
    ensures hide *; JobStampedeToJson(v).Ok? <==> JobStampedeEncodable(v)
    ensures hide *; JobStampedeToJson(v).Ok? ==> JobStampedeToJson(v).value.Obj?
    ensures hide *; JobStampedeEncodable(v) ==> GetJobStampede(JobStampedeToJson(v).value) == Ok(v)
  {
    hide TargetToJson, TargetFromJson, TargetEncodable, Position2DToJson, Position2DFromJson, Put, PutOptional, Get, At, OptionalAt, EncodeEach, DecodeEach, SeqFromJson, FixedFromJson, IntegerOf, U8FromJson, U16FromJson, U32FromJson, U64FromJson, EnumFromJson, FloatFromJson, BoolFromJson, StringFromJson;
    TargetRoundTrip(v.target, Target.Invalid);
    Position2DRoundTrip(v.startCoord);
    if JobStampedeToJson(v).Ok? && JobStampedeEncodable(v) {
      JobStampedeFields(v);
      var j := JobStampedeToJson(v).value;
      hide JobStampedeToJson;
      assert U32FromJson(Int(v.spell)) == Ok(v.spell);
      assert GetJobStampede(j) == Ok(v);
    }
  }

  // JobFlameThrower
  datatype JobFlameThrower = JobFlameThrower(target: Target, spellId: SpellId, durationStepInit: TickCount, durationStepShutDown: TickCount)

  const DefaultJobFlameThrower: JobFlameThrower := JobFlameThrower(Target.Invalid, 0, 0, 0)

  predicate JobFlameThrowerEncodable(v: JobFlameThrower)
  {
    hide TargetEncodable;
    TargetEncodable(v.target)
  }

  function JobFlameThrowerToJson(v: JobFlameThrower): Outcome<Json>
  {
    hide TargetToJson;
    var targetJson :- TargetToJson(v.target);
    var j1 := Put(Null, "target", targetJson);
    var j2 := Put(j1, "spell_id", Int(v.spellId));
    var j3 := Put(j2, "duration_step_init", Int(v.durationStepInit));
    var j4 := Put(j3, "duration_step_shut_down", Int(v.durationStepShutDown));
    Ok(j4)
  }

  function JobFlameThrowerFromJson(j: Json, prior: JobFlameThrower): Outcome<JobFlameThrower>
  {
    hide TargetFromJson;
    var targetJson :- At(j, "target");
    var target :- TargetFromJson(targetJson, prior.target);
    var spellIdJson :- At(j, "spell_id");
    var spellId :- U32FromJson(spellIdJson);
    var durationStepInitJson :- At(j, "duration_step_init");
    var durationStepInit :- U32FromJson(durationStepInitJson);
    var durationStepShutDownJson :- At(j, "duration_step_shut_down");
    var durationStepShutDown :- U32FromJson(durationStepShutDownJson);
    Ok(JobFlameThrower(target, spellId, durationStepInit, durationStepShutDown))
  }

  function GetJobFlameThrower(j: Json): Outcome<JobFlameThrower>
  {
    JobFlameThrowerFromJson(j, DefaultJobFlameThrower)
  }

  /** Each key of the encoded object holds its field, as written. */
  lemma JobFlameThrowerFields(v: JobFlameThrower)
    requires JobFlameThrowerToJson(v).Ok?
    ensures hide *; var j := JobFlameThrowerToJson(v).value;
      && j.Obj?
      && TargetToJson(v.target).Ok?
      && At(j, "target") == Ok(TargetToJson(v.target).value)
      && At(j, "spell_id") == Ok(Int(v.spellId))
      && At(j, "duration_step_init") == Ok(Int(v.durationStepInit))
      && At(j, "duration_step_shut_down") == Ok(Int(v.durationStepShutDown))
  {
    hide TargetToJson, Put, PutOptional, Get, At, OptionalAt, SeqToJson, IntegerOf;
  }

  lemma JobFlameThrowerRoundTrip(v: JobFlameThrower)
    ensures hide *; JobFlameThrowerToJson(v).Ok? <==> JobFlameThrowerEncodable(v)
    ensures hide *; JobFlameThrowerToJson(v).Ok? ==> JobFlameThrowerToJson(v).value.Obj?
    ensures hide *; JobFlameThrowerEncodable(v) ==> GetJobFlameThrower(JobFlameThrowerToJson(v).value) == Ok(v)
  {
    hide TargetToJson, TargetFromJson, TargetEncodable, Put, PutOptional, Get, At, OptionalAt, EncodeEach, DecodeEach, SeqFromJson, FixedFromJson, IntegerOf, U8FromJson, U16FromJson, U32FromJson, U64FromJson, EnumFromJson, FloatFromJson, BoolFromJson, StringFromJson;
    TargetRoundTrip(v.target, Target.Invalid);
    if JobFlameThrowerToJson(v).Ok? && JobFlameThrowerEncodable(v) {
      JobFlameThrowerFields(v);
      var j := JobFlameThrowerToJson(v).value;
      hide JobFlameThrowerToJson;
      assert U32FromJson(Int(v.spellId)) == Ok(v.spellId);
      assert U32FromJson(Int(v.durationStepInit)) == Ok(v.durationStepInit);
      assert U32FromJson(Int(v.durationStepShutDown)) == Ok(v.durationStepShutDown);
      assert GetJobFlameThrower(j) == Ok(v);
    }
  }

  // JobConstruct
  datatype JobConstruct = JobConstruct(constructionUpdateSteps: TickCount, constructionUpdateCountRemaining: TickCount)

  const DefaultJobConstruct: JobConstruct := JobConstruct(0, 0)

  function JobConstructToJson(v: JobConstruct): Outcome<Json>
  {
    var j1 := Put(Null, "construction_update_steps", Int(v.constructionUpdateSteps));
    var j2 := Put(j1, "construction_update_count_remaining", Int(v.constructionUpdateCountRemaining));
    Ok(j2)
  }

  function JobConstructFromJson(j: Json, prior: JobConstruct): Outcome<JobConstruct>
  {
    var constructionUpdateStepsJson :- At(j, "construction_update_steps");
    var constructionUpdateSteps :- U32FromJson(constructionUpdateStepsJson);
    var constructionUpdateCountRemainingJson :- At(j, "construction_update_count_remaining");
    var constructionUpdateCountRemaining :- U32FromJson(constructionUpdateCountRemainingJson);
    Ok(JobConstruct(constructionUpdateSteps, constructionUpdateCountRemaining))
  }

  function GetJobConstruct(j: Json): Outcome<JobConstruct>
  {
    JobConstructFromJson(j, DefaultJobConstruct)
  }

  lemma JobConstructRoundTrip(v: JobConstruct)
    ensures JobConstructToJson(v).Ok? && JobConstructToJson(v).value.Obj?
    ensures GetJobConstruct(JobConstructToJson(v).value) == Ok(v)
  {
    hide Put, PutOptional, Get, At, OptionalAt, EncodeEach, DecodeEach, SeqFromJson, FixedFromJson, IntegerOf, U8FromJson, U16FromJson, U32FromJson, U64FromJson, EnumFromJson, FloatFromJson, BoolFromJson, StringFromJson;
  }

  // JobCrush
  datatype JobCrush = JobCrush(crushSteps: TickCount, entityUpdateSteps: TickCount, remainingCrushSteps: TickCount)

  const DefaultJobCrush: JobCrush := JobCrush(0, 0, 0)

  function JobCrushToJson(v: JobCrush): Outcome<Json>
  {
    var j1 := Put(Null, "crush_steps", Int(v.crushSteps));
    var j2 := Put(j1, "entity_update_steps", Int(v.entityUpdateSteps));
    var j3 := Put(j2, "remaining_crush_steps", Int(v.remainingCrushSteps));
    Ok(j3)
  }

  function JobCrushFromJson(j: Json, prior: JobCrush): Outcome<JobCrush>
  {
    var crushStepsJson :- At(j, "crush_steps");
    var crushSteps :- U32FromJson(crushStepsJson);
    var entityUpdateStepsJson :- At(j, "entity_update_steps");
    var entityUpdateSteps :- U32FromJson(entityUpdateStepsJson);
    var remainingCrushStepsJson :- At(j, "remaining_crush_steps");
    var remainingCrushSteps :- U32FromJson(remainingCrushStepsJson);
    Ok(JobCrush(crushSteps, entityUpdateSteps, remainingCrushSteps))
  }

  function GetJobCrush(j: Json): Outcome<JobCrush>
  {
    JobCrushFromJson(j, DefaultJobCrush)
  }

  /** Each key of the encoded object holds its field, as written. */
  lemma JobCrushFields(v: JobCrush)
    requires JobCrushToJson(v).Ok?
    ensures var j := JobCrushToJson(v).value;
      && j.Obj?
      && At(j, "crush_steps") == Ok(Int(v.crushSteps))
      && At(j, "entity_update_steps") == Ok(Int(v.entityUpdateSteps))
      && At(j, "remaining_crush_steps") == Ok(Int(v.remainingCrushSteps))
  {
    hide Put, PutOptional, Get, At, OptionalAt, SeqToJson, IntegerOf;
  }

  lemma JobCrushRoundTrip(v: JobCrush)
    ensures JobCrushToJson(v).Ok? && JobCrushToJson(v).value.Obj?
    ensures GetJobCrush(JobCrushToJson(v).value) == Ok(v)
  {
    hide Put, PutOptional, Get, At, OptionalAt, EncodeEach, DecodeEach, SeqFromJson, FixedFromJson, IntegerOf, U8FromJson, U16FromJson, U32FromJson, U64FromJson, EnumFromJson, FloatFromJson, BoolFromJson, StringFromJson;
    if JobCrushToJson(v).Ok? {
      JobCrushFields(v);
      var j := JobCrushToJson(v).value;
      hide JobCrushToJson;
      assert U32FromJson(Int(v.crushSteps)) == Ok(v.crushSteps);
      assert U32FromJson(Int(v.entityUpdateSteps)) == Ok(v.entityUpdateSteps);
      assert U32FromJson(Int(v.remainingCrushSteps)) == Ok(v.remainingCrushSteps);
      assert GetJobCrush(j) == Ok(v);
    }
  }

  // JobMountBarrierSquad
  datatype JobMountBarrierSquad = JobMountBarrierSquad(barrierModule: EntityId)

  const DefaultJobMountBarrierSquad: JobMountBarrierSquad := JobMountBarrierSquad(0)

  function JobMountBarrierSquadToJson(v: JobMountBarrierSquad): Outcome<Json>
  {
    var j1 := Put(Null, "barrier_module", Int(v.barrierModule));
    Ok(j1)
  }

  function JobMountBarrierSquadFromJson(j: Json, prior: JobMountBarrierSquad): Outcome<JobMountBarrierSquad>
  {
    var barrierModuleJson :- At(j, "barrier_module");
    var barrierModule :- U32FromJson(barrierModuleJson);
    Ok(JobMountBarrierSquad(barrierModule))
  }

  function GetJobMountBarrierSquad(j: Json): Outcome<JobMountBarrierSquad>
  {
    JobMountBarrierSquadFromJson(j, DefaultJobMountBarrierSquad)
  }

  lemma JobMountBarrierSquadRoundTrip(v: JobMountBarrierSquad)
    ensures JobMountBarrierSquadToJson(v).Ok? && JobMountBarrierSquadToJson(v).value.Obj?
    ensures GetJobMountBarrierSquad(JobMountBarrierSquadToJson(v).value) == Ok(v)
  {
    hide Put, PutOptional, Get, At, OptionalAt, EncodeEach, DecodeEach, SeqFromJson, FixedFromJson, IntegerOf, U8FromJson, U16FromJson, U32FromJson, U64FromJson, EnumFromJson, FloatFromJson, BoolFromJson, StringFromJson;
  }

  // JobMountBarrier
  datatype JobMountBarrier = JobMountBarrier(currentBarrierModule: Option<EntityId>, goalBarrierModule: Option<EntityId>)

  const DefaultJobMountBarrier: JobMountBarrier := JobMountBarrier(None, None)

  function JobMountBarrierToJson(v: JobMountBarrier): Outcome<Json>
  {
    var j1 := PutOptional(Null, "current_barrier_module", if v.currentBarrierModule.Some? then Some(Int(v.currentBarrierModule.value)) else None);
    var j2 := PutOptional(j1, "goal_barrier_module", if v.goalBarrierModule.Some? then Some(Int(v.goalBarrierModule.value)) else None);
    Ok(j2)
  }

  function JobMountBarrierFromJson(j: Json, prior: JobMountBarrier): Outcome<JobMountBarrier>
  {
    var currentBarrierModule :- OptionalAt(j, "current_barrier_module", prior.currentBarrierModule, U32FromJson);
    var goalBarrierModule :- OptionalAt(j, "goal_barrier_module", prior.goalBarrierModule, U32FromJson);
    Ok(JobMountBarrier(currentBarrierModule, goalBarrierModule))
  }

  function GetJobMountBarrier(j: Json): Outcome<JobMountBarrier>
  {
    JobMountBarrierFromJson(j, DefaultJobMountBarrier)
  }

  lemma JobMountBarrierRoundTrip(v: JobMountBarrier)
    ensures JobMountBarrierToJson(v).Ok?
    ensures GetJobMountBarrier(JobMountBarrierToJson(v).value) == Ok(v)
  {
    hide Put, PutOptional, Get, At, OptionalAt, EncodeEach, DecodeEach, SeqFromJson, FixedFromJson, IntegerOf, U8FromJson, U16FromJson, U32FromJson, U64FromJson, EnumFromJson, FloatFromJson, BoolFromJson, StringFromJson;
  }

  // JobModeChangeSquad
  datatype JobModeChangeSquad = JobModeChangeSquad(newMode: ModeId, modeChangeDone: bool)

  const DefaultJobModeChangeSquad: JobModeChangeSquad := JobModeChangeSquad(0, false)

  function JobModeChangeSquadToJson(v: JobModeChangeSquad): Outcome<Json>
  {
    var j1 := Put(Null, "new_mode", Int(v.newMode));
    var j2 := Put(j1, "mode_change_done", Bool(v.modeChangeDone));
    Ok(j2)
  }

  function JobModeChangeSquadFromJson(j: Json, prior: JobModeChangeSquad): Outcome<JobModeChangeSquad>
  {
    var newModeJson :- At(j, "new_mode");
    var newMode :- U32FromJson(newModeJson);
    var modeChangeDoneJson :- At(j, "mode_change_done");
    var modeChangeDone :- BoolFromJson(modeChangeDoneJson);
    Ok(JobModeChangeSquad(newMode, modeChangeDone))
  }

  function GetJobModeChangeSquad(j: Json): Outcome<JobModeChangeSquad>
  {
    JobModeChangeSquadFromJson(j, DefaultJobModeChangeSquad)
  }

  lemma JobModeChangeSquadRoundTrip(v: JobModeChangeSquad)
    ensures JobModeChangeSquadToJson(v).Ok? && JobModeChangeSquadToJson(v).value.Obj?
    ensures GetJobModeChangeSquad(JobModeChangeSquadToJson(v).value) == Ok(v)
  {
    hide Put, PutOptional, Get, At, OptionalAt, EncodeEach, DecodeEach, SeqFromJson, FixedFromJson, IntegerOf, U8FromJson, U16FromJson, U32FromJson, U64FromJson, EnumFromJson, FloatFromJson, BoolFromJson, StringFromJson;
  }

  // JobModeChange
  datatype JobModeChange = JobModeChange(newMode: ModeId)

  const DefaultJobModeChange: JobModeChange := JobModeChange(0)

  function JobModeChangeToJson(v: JobModeChange): Outcome<Json>
  {
    var j1 := Put(Null, "new_mode", Int(v.newMode));
    Ok(j1)
  }

  function JobModeChangeFromJson(j: Json, prior: JobModeChange): Outcome<JobModeChange>
  {
    var newModeJson :- At(j, "new_mode");
    var newMode :- U32FromJson(newModeJson);
    Ok(JobModeChange(newMode))
  }

  function GetJobModeChange(j: Json): Outcome<JobModeChange>
  {
    JobModeChangeFromJson(j, DefaultJobModeChange)
  }

  lemma JobModeChangeRoundTrip(v: JobModeChange)
    ensures JobModeChangeToJson(v).Ok? && JobModeChangeToJson(v).value.Obj?
    ensures GetJobModeChange(JobModeChangeToJson(v).value) == Ok(v)
  {
    hide Put, PutOptional, Get, At, OptionalAt, EncodeEach, DecodeEach, SeqFromJson, FixedFromJson, IntegerOf, U8FromJson, U16FromJson, U32FromJson, U64FromJson, EnumFromJson, FloatFromJson, BoolFromJson, StringFromJson;
  }

  // JobSacrificeSquad
  datatype JobSacrificeSquad = JobSacrificeSquad(targetEntity: EntityId)

  const DefaultJobSacrificeSquad: JobSacrificeSquad := JobSacrificeSquad(0)

  function JobSacrificeSquadToJson(v: JobSacrificeSquad): Outcome<Json>
  {
    var j1 := Put(Null, "target_entity", Int(v.targetEntity));
    Ok(j1)
  }

  function JobSacrificeSquadFromJson(j: Json, prior: JobSacrificeSquad): Outcome<JobSacrificeSquad>
  {
    var targetEntityJson :- At(j, "target_entity");
    var targetEntity :- U32FromJson(targetEntityJson);
    Ok(JobSacrificeSquad(targetEntity))
  }

  function GetJobSacrificeSquad(j: Json): Outcome<JobSacrificeSquad>
  {
    JobSacrificeSquadFromJson(j, DefaultJobSacrificeSquad)
  }

  lemma JobSacrificeSquadRoundTrip(v: JobSacrificeSquad)
    ensures JobSacrificeSquadToJson(v).Ok? && JobSacrificeSquadToJson(v).value.Obj?
    ensures GetJobSacrificeSquad(JobSacrificeSquadToJson(v).value) == Ok(v)
  {
    hide Put, PutOptional, Get, At, OptionalAt, EncodeEach, DecodeEach, SeqFromJson, FixedFromJson, IntegerOf, U8FromJson, U16FromJson, U32FromJson, U64FromJson, EnumFromJson, FloatFromJson, BoolFromJson, StringFromJson;
  }

  // JobUsePortalSquad
  datatype JobUsePortalSquad = JobUsePortalSquad(targetEntityId: EntityId)

  const DefaultJobUsePortalSquad: JobUsePortalSquad := JobUsePortalSquad(0)

  function JobUsePortalSquadToJson(v: JobUsePortalSquad): Outcome<Json>
  {
    var j1 := Put(Null, "target_entity_id", Int(v.targetEntityId));
    Ok(j1)
  }

  function JobUsePortalSquadFromJson(j: Json, prior: JobUsePortalSquad): Outcome<JobUsePortalSquad>
  {
    var targetEntityIdJson :- At(j, "target_entity_id");
    var targetEntityId :- U32FromJson(targetEntityIdJson);
    Ok(JobUsePortalSquad(targetEntityId))
  }

  function GetJobUsePortalSquad(j: Json): Outcome<JobUsePortalSquad>
  {
    JobUsePortalSquadFromJson(j, DefaultJobUsePortalSquad)
  }

  lemma JobUsePortalSquadRoundTrip(v: JobUsePortalSquad)
    ensures JobUsePortalSquadToJson(v).Ok? && JobUsePortalSquadToJson(v).value.Obj?
    ensures GetJobUsePortalSquad(JobUsePortalSquadToJson(v).value) == Ok(v)
  {
    hide Put, PutOptional, Get, At, OptionalAt, EncodeEach, DecodeEach, SeqFromJson, FixedFromJson, IntegerOf, U8FromJson, U16FromJson, U32FromJson, U64FromJson, EnumFromJson, FloatFromJson, BoolFromJson, StringFromJson;
  }

  // JobChannel
  datatype JobChannel = JobChannel(targetSquadId: Option<EntityId>, modeTargetWorld: bool, entityId: Option<EntityId>, spellId: SpellId, spellIdOnTargetOnFinish: Option<SpellId>, spellIdOnTargetOnStart: Option<SpellId>, stepDurationUntilFinish: TickCount, timingChannelStart: u32, timingChannelLoop: u32, timingChannelEnd: u32, abortOnOutOfRangeSquared: real, abortCheckFailed: bool, orientateToTarget: bool, orientateToTargetMaxStep: TickCount, abortOnOwnerGetDamaged: bool, abortOnModeChange: bool)

  const DefaultJobChannel: JobChannel := JobChannel(None, false, None, 0, None, None, 0, 0, 0, 0, 0.0, false, false, 0, false, false)

  function JobChannelToJson(v: JobChannel): Outcome<Json>
  {
    var j1 := PutOptional(Null, "target_squad_id", if v.targetSquadId.Some? then Some(Int(v.targetSquadId.value)) else None);
    var j2 := Put(j1, "mode_target_world", Bool(v.modeTargetWorld));
    var j3 := PutOptional(j2, "entity_id", if v.entityId.Some? then Some(Int(v.entityId.value)) else None);
    var j4 := Put(j3, "spell_id", Int(v.spellId));
    var j5 := PutOptional(j4, "spell_id_on_target_on_finish", if v.spellIdOnTargetOnFinish.Some? then Some(Int(v.spellIdOnTargetOnFinish.value)) else None);
    var j6 := PutOptional(j5, "spell_id_on_target_on_start", if v.spellIdOnTargetOnStart.Some? then Some(Int(v.spellIdOnTargetOnStart.value)) else None);
    var j7 := Put(j6, "step_duration_until_finish", Int(v.stepDurationUntilFinish));
    var j8 := Put(j7, "timing_channel_start", Int(v.timingChannelStart));
    var j9 := Put(j8, "timing_channel_loop", Int(v.timingChannelLoop));
    var j10 := Put(j9, "timing_channel_end", Int(v.timingChannelEnd));
    var j11 := Put(j10, "abort_on_out_of_range_squared", Float(v.abortOnOutOfRangeSquared));
    var j12 := Put(j11, "abort_check_failed", Bool(v.abortCheckFailed));
    var j13 := Put(j12, "orientate_to_target", Bool(v.orientateToTarget));
    var j14 := Put(j13, "orientate_to_target_max_step", Int(v.orientateToTargetMaxStep));
    var j15 := Put(j14, "abort_on_owner_get_damaged", Bool(v.abortOnOwnerGetDamaged));
    var j16 := Put(j15, "abort_on_mode_change", Bool(v.abortOnModeChange));
    Ok(j16)
  }

  function JobChannelFromJson(j: Json, prior: JobChannel): Outcome<JobChannel>
  {
    var targetSquadId :- OptionalAt(j, "target_squad_id", prior.targetSquadId, U32FromJson);
    var modeTargetWorldJson :- At(j, "mode_target_world");
    var modeTargetWorld :- BoolFromJson(modeTargetWorldJson);
    var entityId :- OptionalAt(j, "entity_id", prior.entityId, U32FromJson);
    var spellIdJson :- At(j, "spell_id");
    var spellId :- U32FromJson(spellIdJson);
    var spellIdOnTargetOnFinish :- OptionalAt(j, "spell_id_on_target_on_finish", prior.spellIdOnTargetOnFinish, U32FromJson);
    var spellIdOnTargetOnStart :- OptionalAt(j, "spell_id_on_target_on_start", prior.spellIdOnTargetOnStart, U32FromJson);
    var stepDurationUntilFinishJson :- At(j, "step_duration_until_finish");
    var stepDurationUntilFinish :- U32FromJson(stepDurationUntilFinishJson);
    var timingChannelStartJson :- At(j, "timing_channel_start");
    var timingChannelStart :- U32FromJson(timingChannelStartJson);
    var timingChannelLoopJson :- At(j, "timing_channel_loop");
    var timingChannelLoop :- U32FromJson(timingChannelLoopJson);
    var timingChannelEndJson :- At(j, "timing_channel_end");
    var timingChannelEnd :- U32FromJson(timingChannelEndJson);
    var abortOnOutOfRangeSquaredJson :- At(j, "abort_on_out_of_range_squared");
    var abortOnOutOfRangeSquared :- FloatFromJson(abortOnOutOfRangeSquaredJson);
    var abortCheckFailedJson :- At(j, "abort_check_failed");
    var abortCheckFailed :- BoolFromJson(abortCheckFailedJson);
    var orientateToTargetJson :- At(j, "orientate_to_target");
    var orientateToTarget :- BoolFromJson(orientateToTargetJson);
    var orientateToTargetMaxStepJson :- At(j, "orientate_to_target_max_step");
    var orientateToTargetMaxStep :- U32FromJson(orientateToTargetMaxStepJson);
    var abortOnOwnerGetDamagedJson :- At(j, "abort_on_owner_get_damaged");
    var abortOnOwnerGetDamaged :- BoolFromJson(abortOnOwnerGetDamagedJson);
    var abortOnModeChangeJson :- At(j, "abort_on_mode_change");
    var abortOnModeChange :- BoolFromJson(abortOnModeChangeJson);
    Ok(JobChannel(targetSquadId, modeTargetWorld, entityId, spellId, spellIdOnTargetOnFinish, spellIdOnTargetOnStart, stepDurationUntilFinish, timingChannelStart, timingChannelLoop, timingChannelEnd, abortOnOutOfRangeSquared, abortCheckFailed, orientateToTarget, orientateToTargetMaxStep, abortOnOwnerGetDamaged, abortOnModeChange))
  }

  function GetJobChannel(j: Json): Outcome<JobChannel>
  {
    JobChannelFromJson(j, DefaultJobChannel)
  }

  /** Keys of the encoded object, part 1: each holds its field, as written. */
  lemma JobChannelFieldsPart1(v: JobChannel)
    requires JobChannelToJson(v).Ok?
    ensures var j := JobChannelToJson(v).value;
      && j.Obj?
      && OptionalAt(j, "target_squad_id", None, U32FromJson) == Ok(v.targetSquadId)
      && At(j, "mode_target_world") == Ok(Bool(v.modeTargetWorld))
  {
    hide Put, PutOptional, Get, At, OptionalAt, SeqToJson, IntegerOf;
  }

  /** Keys of the encoded object, part 2: each holds its field, as written. */
  lemma JobChannelFieldsPart2(v: JobChannel)
    requires JobChannelToJson(v).Ok?
    ensures var j := JobChannelToJson(v).value;
      && OptionalAt(j, "entity_id", None, U32FromJson) == Ok(v.entityId)
      && At(j, "spell_id") == Ok(Int(v.spellId))
  {
    hide Put, PutOptional, Get, At, OptionalAt, SeqToJson, IntegerOf;
  }

  /** Keys of the encoded object, part 3: each holds its field, as written. */
  lemma JobChannelFieldsPart3(v: JobChannel)
    requires JobChannelToJson(v).Ok?
    ensures var j := JobChannelToJson(v).value;
      && OptionalAt(j, "spell_id_on_target_on_finish", None, U32FromJson) == Ok(v.spellIdOnTargetOnFinish)
      && OptionalAt(j, "spell_id_on_target_on_start", None, U32FromJson) == Ok(v.spellIdOnTargetOnStart)
  {
    hide Put, PutOptional, Get, At, OptionalAt, SeqToJson, IntegerOf;
  }

  /** Keys of the encoded object, part 4: each holds its field, as written. */
  lemma JobChannelFieldsPart4(v: JobChannel)
    requires JobChannelToJson(v).Ok?
    ensures var j := JobChannelToJson(v).value;
      && At(j, "step_duration_until_finish") == Ok(Int(v.stepDurationUntilFinish))
      && At(j, "timing_channel_start") == Ok(Int(v.timingChannelStart))
      && At(j, "timing_channel_loop") == Ok(Int(v.timingChannelLoop))
      && At(j, "timing_channel_end") == Ok(Int(v.timingChannelEnd))
  {
    hide Put, PutOptional, Get, At, OptionalAt, SeqToJson, IntegerOf;
  }

  /** Keys of the encoded object, part 5: each holds its field, as written. */
  lemma JobChannelFieldsPart5(v: JobChannel)
    requires JobChannelToJson(v).Ok?
    ensures var j := JobChannelToJson(v).value;
      && At(j, "abort_on_out_of_range_squared") == Ok(Float(v.abortOnOutOfRangeSquared))
      && At(j, "abort_check_failed") == Ok(Bool(v.abortCheckFailed))
      && At(j, "orientate_to_target") == Ok(Bool(v.orientateToTarget))
      && At(j, "orientate_to_target_max_step") == Ok(Int(v.orientateToTargetMaxStep))
  {
    hide Put, PutOptional, Get, At, OptionalAt, SeqToJson, IntegerOf;
  }

  /** Keys of the encoded object, part 6: each holds its field, as written. */
  lemma JobChannelFieldsPart6(v: JobChannel)
    requires JobChannelToJson(v).Ok?
    ensures var j := JobChannelToJson(v).value;
      && At(j, "abort_on_owner_get_damaged") == Ok(Bool(v.abortOnOwnerGetDamaged))
      && At(j, "abort_on_mode_change") == Ok(Bool(v.abortOnModeChange))
  {
    hide Put, PutOptional, Get, At, OptionalAt, SeqToJson, IntegerOf;
  }

  lemma JobChannelRoundTrip(v: JobChannel)
    ensures JobChannelToJson(v).Ok? && JobChannelToJson(v).value.Obj?
    ensures GetJobChannel(JobChannelToJson(v).value) == Ok(v)
  {
    hide Put, PutOptional, Get, At, OptionalAt, EncodeEach, DecodeEach, SeqFromJson, FixedFromJson, IntegerOf, U8FromJson, U16FromJson, U32FromJson, U64FromJson, EnumFromJson, FloatFromJson, BoolFromJson, StringFromJson;
    if JobChannelToJson(v).Ok? {
      JobChannelFieldsPart1(v);
      JobChannelFieldsPart2(v);
      JobChannelFieldsPart3(v);
      JobChannelFieldsPart4(v);
      JobChannelFieldsPart5(v);
      JobChannelFieldsPart6(v);
      var j := JobChannelToJson(v).value;
      hide JobChannelToJson;
      assert BoolFromJson(Bool(v.modeTargetWorld)) == Ok(v.modeTargetWorld);
      assert U32FromJson(Int(v.spellId)) == Ok(v.spellId);
      assert U32FromJson(Int(v.stepDurationUntilFinish)) == Ok(v.stepDurationUntilFinish);
      assert U32FromJson(Int(v.timingChannelStart)) == Ok(v.timingChannelStart);
      assert U32FromJson(Int(v.timingChannelLoop)) == Ok(v.timingChannelLoop);
      assert U32FromJson(Int(v.timingChannelEnd)) == Ok(v.timingChannelEnd);
      assert FloatFromJson(Float(v.abortOnOutOfRangeSquared)) == Ok(v.abortOnOutOfRangeSquared);
      assert BoolFromJson(Bool(v.abortCheckFailed)) == Ok(v.abortCheckFailed);
      assert BoolFromJson(Bool(v.orientateToTarget)) == Ok(v.orientateToTarget);
      assert U32FromJson(Int(v.orientateToTargetMaxStep)) == Ok(v.orientateToTargetMaxStep);
      assert BoolFromJson(Bool(v.abortOnOwnerGetDamaged)) == Ok(v.abortOnOwnerGetDamaged);
      assert BoolFromJson(Bool(v.abortOnModeChange)) == Ok(v.abortOnModeChange);
      assert GetJobChannel(j) == Ok(v);
    }
  }

  // JobLootTargetSquad
  datatype JobLootTargetSquad = JobLootTargetSquad(targetEntityId: EntityId)

  const DefaultJobLootTargetSquad: JobLootTargetSquad := JobLootTargetSquad(0)

  function JobLootTargetSquadToJson(v: JobLootTargetSquad): Outcome<Json>
  {
    var j1 := Put(Null, "target_entity_id", Int(v.targetEntityId));
    Ok(j1)
  }

  function JobLootTargetSquadFromJson(j: Json, prior: JobLootTargetSquad): Outcome<JobLootTargetSquad>
  {
    var targetEntityIdJson :- At(j, "target_entity_id");
    var targetEntityId :- U32FromJson(targetEntityIdJson);
    Ok(JobLootTargetSquad(targetEntityId))
  }

  function GetJobLootTargetSquad(j: Json): Outcome<JobLootTargetSquad>
  {
    JobLootTargetSquadFromJson(j, DefaultJobLootTargetSquad)
  }

  lemma JobLootTargetSquadRoundTrip(v: JobLootTargetSquad)
    ensures JobLootTargetSquadToJson(v).Ok? && JobLootTargetSquadToJson(v).value.Obj?
    ensures GetJobLootTargetSquad(JobLootTargetSquadToJson(v).value) == Ok(v)
  {
    hide Put, PutOptional, Get, At, OptionalAt, EncodeEach, DecodeEach, SeqFromJson, FixedFromJson, IntegerOf, U8FromJson, U16FromJson, U32FromJson, U64FromJson, EnumFromJson, FloatFromJson, BoolFromJson, StringFromJson;
  }

  // JobMorph
  datatype JobMorph = JobMorph(target: Target, spell: SpellId)

  const DefaultJobMorph: JobMorph := JobMorph(Target.Invalid, 0)

  predicate JobMorphEncodable(v: JobMorph)
  {
    hide TargetEncodable;
    TargetEncodable(v.target)
  }

  function JobMorphToJson(v: JobMorph): Outcome<Json>
  {
    hide TargetToJson;
    var targetJson :- TargetToJson(v.target);
    var j1 := Put(Null, "target", targetJson);
    var j2 := Put(j1, "spell", Int(v.spell));
    Ok(j2)
  }

  function JobMorphFromJson(j: Json, prior: JobMorph): Outcome<JobMorph>
  {
    hide TargetFromJson;
    var targetJson :- At(j, "target");
    var target :- TargetFromJson(targetJson, prior.target);
    var spellJson :- At(j, "spell");
    var spell :- U32FromJson(spellJson);
    Ok(JobMorph(target, spell))
  }

  function GetJobMorph(j: Json): Outcome<JobMorph>
  {
    JobMorphFromJson(j, DefaultJobMorph)
  }

  /** Each key of the encoded object holds its field, as written. */
  lemma JobMorphFields(v: JobMorph)
    requires JobMorphToJson(v).Ok?
    ensures hide *; var j := JobMorphToJson(v).value;
      && j.Obj?
      && TargetToJson(v.target).Ok?
      && At(j, "target") == Ok(TargetToJson(v.target).value)
      && At(j, "spell") == Ok(Int(v.spell))
  {
    hide TargetToJson, Put, PutOptional, Get, At, OptionalAt, SeqToJson, IntegerOf;
  }

  lemma JobMorphRoundTrip(v: JobMorph)
    ensures hide *; JobMorphToJson(v).Ok? <==> JobMorphEncodable(v)
    ensures hide *; JobMorphToJson(v).Ok? ==> JobMorphToJson(v).value.Obj?
    ensures hide *; JobMorphEncodable(v) ==> GetJobMorph(JobMorphToJson(v).value) == Ok(v)
  {
    hide TargetToJson, TargetFromJson, TargetEncodable, Put, PutOptional, Get, At, OptionalAt, EncodeEach, DecodeEach, SeqFromJson, FixedFromJson, IntegerOf, U8FromJson, U16FromJson, U32FromJson, U64FromJson, EnumFromJson, FloatFromJson, BoolFromJson, StringFromJson;
    TargetRoundTrip(v.target, Target.Invalid);
    if JobMorphToJson(v).Ok? && JobMorphEncodable(v) {
      JobMorphFields(v);
      var j := JobMorphToJson(v).value;
      hide JobMorphToJson;
      assert U32FromJson(Int(v.spell)) == Ok(v.spell);
      assert GetJobMorph(j) == Ok(v);
    }
  }

  // JobUnknown
  datatype JobUnknown = JobUnknown(id: u32)

  const DefaultJobUnknown: JobUnknown := JobUnknown(0)

  function JobUnknownToJson(v: JobUnknown): Outcome<Json>
  {
    var j1 := Put(Null, "id", Int(v.id));
    Ok(j1)
  }

  function JobUnknownFromJson(j: Json, prior: JobUnknown): Outcome<JobUnknown>
  {
    var idJson :- At(j, "id");
    var id :- U32FromJson(idJson);
    Ok(JobUnknown(id))
  }

  function GetJobUnknown(j: Json): Outcome<JobUnknown>
  {
    JobUnknownFromJson(j, DefaultJobUnknown)
  }

  lemma JobUnknownRoundTrip(v: JobUnknown)
    ensures JobUnknownToJson(v).Ok? && JobUnknownToJson(v).value.Obj?
    ensures GetJobUnknown(JobUnknownToJson(v).value) == Ok(v)
  {
    hide Put, PutOptional, Get, At, OptionalAt, EncodeEach, DecodeEach, SeqFromJson, FixedFromJson, IntegerOf, U8FromJson, U16FromJson, U32FromJson, U64FromJson, EnumFromJson, FloatFromJson, BoolFromJson, StringFromJson;
  }

  // Job
  datatype Job =
    | Invalid
    | NoJob
    | Idle
    | Goto(goTo: JobGoto)
    | AttackMelee(attackMelee: JobAttackMelee)
    | CastSpell(castSpell: JobCastSpell)
    | Die
    | Talk(talk: JobTalk)
    | ScriptTalk(scriptTalk: JobScriptTalk)
    | Freeze(freeze: JobFreeze)
    | Spawn(spawn: JobSpawn)
    | Cheer
    | AttackSquad(attackSquad: JobAttackSquad)
    | CastSpellSquad(castSpellSquad: JobCastSpellSquad)
    | PushBack(pushBack: JobPushBack)
    | Stampede(stampede: JobStampede)
    | BarrierCrush
    | BarrierGateToggle
    | FlameThrower(flameThrower: JobFlameThrower)
    | Construct(construct: JobConstruct)
    | Crush(crush: JobCrush)
    | MountBarrierSquad(mountBarrierSquad: JobMountBarrierSquad)
    | MountBarrier(mountBarrier: JobMountBarrier)
    | ModeChangeSquad(modeChangeSquad: JobModeChangeSquad)
    | ModeChange(modeChange: JobModeChange)
    | SacrificeSquad(sacrificeSquad: JobSacrificeSquad)
    | UsePortalSquad(usePortalSquad: JobUsePortalSquad)
    | Channel(channel: JobChannel)
    | SpawnSquad
    | LootTargetSquad(lootTargetSquad: JobLootTargetSquad)
    | Morph(morph: JobMorph)
    | Unknown(unknown: JobUnknown)

  /** The labels `from_json` tests, in order. */
  const JobLabels: seq<string> := ["NoJob", "Idle", "Goto", "AttackMelee", "CastSpell", "Die", "Talk", "ScriptTalk", "Freeze", "Spawn", "Cheer", "AttackSquad", "CastSpellSquad", "PushBack", "Stampede", "BarrierCrush", "BarrierGateToggle", "FlameThrower", "Construct", "Crush", "MountBarrierSquad", "MountBarrier", "ModeChangeSquad", "ModeChange", "SacrificeSquad", "UsePortalSquad", "Channel", "SpawnSquad", "LootTargetSquad", "Morph", "Unknown"]

  /** The position of the case in the `std::variant`; 0 is `Invalid`. */
  function JobIndex(v: Job): nat
  {
    match v
    case Invalid => 0
    case NoJob => 1
    case Idle => 2
    case Goto(_) => 3
    case AttackMelee(_) => 4
    case CastSpell(_) => 5
    case Die => 6
    case Talk(_) => 7
    case ScriptTalk(_) => 8
    case Freeze(_) => 9
    case Spawn(_) => 10
    case Cheer => 11
    case AttackSquad(_) => 12
    case CastSpellSquad(_) => 13
    case PushBack(_) => 14
    case Stampede(_) => 15
    case BarrierCrush => 16
    case BarrierGateToggle => 17
    case FlameThrower(_) => 18
    case Construct(_) => 19
    case Crush(_) => 20
    case MountBarrierSquad(_) => 21
    case MountBarrier(_) => 22
    case ModeChangeSquad(_) => 23
    case ModeChange(_) => 24
    case SacrificeSquad(_) => 25
    case UsePortalSquad(_) => 26
    case Channel(_) => 27
    case SpawnSquad => 28
    case LootTargetSquad(_) => 29
    case Morph(_) => 30
    case Unknown(_) => 31
  }

  predicate JobEncodable(v: Job)
  {
    hide JobAttackMeleeEncodable, JobCastSpellEncodable, JobAttackSquadEncodable, JobCastSpellSquadEncodable, JobStampedeEncodable, JobFlameThrowerEncodable, JobMorphEncodable;
    match v
    case Invalid => false
    case NoJob => true
    case Idle => true
    case Goto(_) => true
    case AttackMelee(p) => JobAttackMeleeEncodable(p)
    case CastSpell(p) => JobCastSpellEncodable(p)
    case Die => true
    case Talk(_) => true
    case ScriptTalk(_) => true
    case Freeze(_) => true
    case Spawn(_) => true
    case Cheer => true
    case AttackSquad(p) => JobAttackSquadEncodable(p)
    case CastSpellSquad(p) => JobCastSpellSquadEncodable(p)
    case PushBack(_) => true
    case Stampede(p) => JobStampedeEncodable(p)
    case BarrierCrush => true
    case BarrierGateToggle => true
    case FlameThrower(p) => JobFlameThrowerEncodable(p)
    case Construct(_) => true
    case Crush(_) => true
    case MountBarrierSquad(_) => true
    case MountBarrier(_) => true
    case ModeChangeSquad(_) => true
    case ModeChange(_) => true
    case SacrificeSquad(_) => true
    case UsePortalSquad(_) => true
    case Channel(_) => true
    case SpawnSquad => true
    case LootTargetSquad(_) => true
    case Morph(p) => JobMorphEncodable(p)
    case Unknown(_) => true
  }

  /** The payload of the active case, as the union member holding it encodes. */
  function JobPayloadToJson(v: Job): Outcome<Json>
  {
    hide JobGotoToJson, JobAttackMeleeToJson, JobCastSpellToJson, JobTalkToJson, JobScriptTalkToJson, JobFreezeToJson, JobSpawnToJson, JobAttackSquadToJson, JobCastSpellSquadToJson, JobPushBackToJson, JobStampedeToJson, JobFlameThrowerToJson, JobConstructToJson, JobCrushToJson, JobMountBarrierSquadToJson, JobMountBarrierToJson, JobModeChangeSquadToJson, JobModeChangeToJson, JobSacrificeSquadToJson, JobUsePortalSquadToJson, JobChannelToJson, JobLootTargetSquadToJson, JobMorphToJson, JobUnknownToJson;
    match v
    case Invalid => Err(InvalidDefaultVariant)
    case NoJob => Ok(MarkerJson("JobNoJob"))
    case Idle => Ok(MarkerJson("JobIdle"))
    case Goto(p) => JobGotoToJson(p)
    case AttackMelee(p) => JobAttackMeleeToJson(p)
    case CastSpell(p) => JobCastSpellToJson(p)
    case Die => Ok(MarkerJson("JobDie"))
    case Talk(p) => JobTalkToJson(p)
    case ScriptTalk(p) => JobScriptTalkToJson(p)
    case Freeze(p) => JobFreezeToJson(p)
    case Spawn(p) => JobSpawnToJson(p)
    case Cheer => Ok(MarkerJson("JobCheer"))
    case AttackSquad(p) => JobAttackSquadToJson(p)
    case CastSpellSquad(p) => JobCastSpellSquadToJson(p)
    case PushBack(p) => JobPushBackToJson(p)
    case Stampede(p) => JobStampedeToJson(p)
    case BarrierCrush => Ok(MarkerJson("JobBarrierCrush"))
    case BarrierGateToggle => Ok(MarkerJson("JobBarrierGateToggle"))
    case FlameThrower(p) => JobFlameThrowerToJson(p)
    case Construct(p) => JobConstructToJson(p)
    case Crush(p) => JobCrushToJson(p)
    case MountBarrierSquad(p) => JobMountBarrierSquadToJson(p)
    case MountBarrier(p) => JobMountBarrierToJson(p)
    case ModeChangeSquad(p) => JobModeChangeSquadToJson(p)
    case ModeChange(p) => JobModeChangeToJson(p)
    case SacrificeSquad(p) => JobSacrificeSquadToJson(p)
    case UsePortalSquad(p) => JobUsePortalSquadToJson(p)
    case Channel(p) => JobChannelToJson(p)
    case SpawnSquad => Ok(MarkerJson("JobSpawnSquad"))
    case LootTargetSquad(p) => JobLootTargetSquadToJson(p)
    case Morph(p) => JobMorphToJson(p)
    case Unknown(p) => JobUnknownToJson(p)
  }

  function JobToJson(v: Job): Outcome<Json>
  {
    hide JobGotoToJson, JobAttackMeleeToJson, JobCastSpellToJson, JobTalkToJson, JobScriptTalkToJson, JobFreezeToJson, JobSpawnToJson, JobAttackSquadToJson, JobCastSpellSquadToJson, JobPushBackToJson, JobStampedeToJson, JobFlameThrowerToJson, JobConstructToJson, JobCrushToJson, JobMountBarrierSquadToJson, JobMountBarrierToJson, JobModeChangeSquadToJson, JobModeChangeToJson, JobSacrificeSquadToJson, JobUsePortalSquadToJson, JobChannelToJson, JobLootTargetSquadToJson, JobMorphToJson, JobUnknownToJson;
    match v
    case Invalid => Err(InvalidDefaultVariant)
    case NoJob => Ok(Obj([("NoJob", MarkerJson("JobNoJob"))]))
    case Idle => Ok(Obj([("Idle", MarkerJson("JobIdle"))]))
    case Goto(p) => var x :- JobGotoToJson(p); Ok(Obj([("Goto", x)]))
    case AttackMelee(p) => var x :- JobAttackMeleeToJson(p); Ok(Obj([("AttackMelee", x)]))
    case CastSpell(p) => var x :- JobCastSpellToJson(p); Ok(Obj([("CastSpell", x)]))
    case Die => Ok(Obj([("Die", MarkerJson("JobDie"))]))
    case Talk(p) => var x :- JobTalkToJson(p); Ok(Obj([("Talk", x)]))
    case ScriptTalk(p) => var x :- JobScriptTalkToJson(p); Ok(Obj([("ScriptTalk", x)]))
    case Freeze(p) => var x :- JobFreezeToJson(p); Ok(Obj([("Freeze", x)]))
    case Spawn(p) => var x :- JobSpawnToJson(p); Ok(Obj([("Spawn", x)]))
    case Cheer => Ok(Obj([("Cheer", MarkerJson("JobCheer"))]))
    case AttackSquad(p) => var x :- JobAttackSquadToJson(p); Ok(Obj([("AttackSquad", x)]))
    case CastSpellSquad(p) => var x :- JobCastSpellSquadToJson(p); Ok(Obj([("CastSpellSquad", x)]))
    case PushBack(p) => var x :- JobPushBackToJson(p); Ok(Obj([("PushBack", x)]))
    case Stampede(p) => var x :- JobStampedeToJson(p); Ok(Obj([("Stampede", x)]))
    case BarrierCrush => Ok(Obj([("BarrierCrush", MarkerJson("JobBarrierCrush"))]))
    case BarrierGateToggle => Ok(Obj([("BarrierGateToggle", MarkerJson("JobBarrierGateToggle"))]))
    case FlameThrower(p) => var x :- JobFlameThrowerToJson(p); Ok(Obj([("FlameThrower", x)]))
    case Construct(p) => var x :- JobConstructToJson(p); Ok(Obj([("Construct", x)]))
    case Crush(p) => var x :- JobCrushToJson(p); Ok(Obj([("Crush", x)]))
    case MountBarrierSquad(p) => var x :- JobMountBarrierSquadToJson(p); Ok(Obj([("MountBarrierSquad", x)]))
    case MountBarrier(p) => var x :- JobMountBarrierToJson(p); Ok(Obj([("MountBarrier", x)]))
    case ModeChangeSquad(p) => var x :- JobModeChangeSquadToJson(p); Ok(Obj([("ModeChangeSquad", x)]))
    case ModeChange(p) => var x :- JobModeChangeToJson(p); Ok(Obj([("ModeChange", x)]))
    case SacrificeSquad(p) => var x :- JobSacrificeSquadToJson(p); Ok(Obj([("SacrificeSquad", x)]))
    case UsePortalSquad(p) => var x :- JobUsePortalSquadToJson(p); Ok(Obj([("UsePortalSquad", x)]))
    case Channel(p) => var x :- JobChannelToJson(p); Ok(Obj([("Channel", x)]))
    case SpawnSquad => Ok(Obj([("SpawnSquad", MarkerJson("JobSpawnSquad"))]))
    case LootTargetSquad(p) => var x :- JobLootTargetSquadToJson(p); Ok(Obj([("LootTargetSquad", x)]))
    case Morph(p) => var x :- JobMorphToJson(p); Ok(Obj([("Morph", x)]))
    case Unknown(p) => var x :- JobUnknownToJson(p); Ok(Obj([("Unknown", x)]))
  }

  /** `value.get<Payload>()` for case `index` of `JobLabels`. */
  function JobCase(index: nat, payload: Json): Outcome<Job>
    requires 1 <= index <= |JobLabels|
  {
    hide JobGotoFromJson, JobAttackMeleeFromJson, JobCastSpellFromJson, JobTalkFromJson, JobScriptTalkFromJson, JobFreezeFromJson, JobSpawnFromJson, JobAttackSquadFromJson, JobCastSpellSquadFromJson, JobPushBackFromJson, JobStampedeFromJson, JobFlameThrowerFromJson, JobConstructFromJson, JobCrushFromJson, JobMountBarrierSquadFromJson, JobMountBarrierFromJson, JobModeChangeSquadFromJson, JobModeChangeFromJson, JobSacrificeSquadFromJson, JobUsePortalSquadFromJson, JobChannelFromJson, JobLootTargetSquadFromJson, JobMorphFromJson, JobUnknownFromJson;
    match index
    case 1 => Ok(Job.NoJob)
    case 2 => Ok(Job.Idle)
    case 3 => var x :- GetJobGoto(payload); Ok(Job.Goto(x))
    case 4 => var x :- GetJobAttackMelee(payload); Ok(Job.AttackMelee(x))
    case 5 => var x :- GetJobCastSpell(payload); Ok(Job.CastSpell(x))
    case 6 => Ok(Job.Die)
    case 7 => var x :- GetJobTalk(payload); Ok(Job.Talk(x))
    case 8 => var x :- GetJobScriptTalk(payload); Ok(Job.ScriptTalk(x))
    case 9 => var x :- GetJobFreeze(payload); Ok(Job.Freeze(x))
    case 10 => var x :- GetJobSpawn(payload); Ok(Job.Spawn(x))
    case 11 => Ok(Job.Cheer)
    case 12 => var x :- GetJobAttackSquad(payload); Ok(Job.AttackSquad(x))
    case 13 => var x :- GetJobCastSpellSquad(payload); Ok(Job.CastSpellSquad(x))
    case 14 => var x :- GetJobPushBack(payload); Ok(Job.PushBack(x))
    case 15 => var x :- GetJobStampede(payload); Ok(Job.Stampede(x))
    case 16 => Ok(Job.BarrierCrush)
    case 17 => Ok(Job.BarrierGateToggle)
    case 18 => var x :- GetJobFlameThrower(payload); Ok(Job.FlameThrower(x))
    case 19 => var x :- GetJobConstruct(payload); Ok(Job.Construct(x))
    case 20 => var x :- GetJobCrush(payload); Ok(Job.Crush(x))
    case 21 => var x :- GetJobMountBarrierSquad(payload); Ok(Job.MountBarrierSquad(x))
    case 22 => var x :- GetJobMountBarrier(payload); Ok(Job.MountBarrier(x))
    case 23 => var x :- GetJobModeChangeSquad(payload); Ok(Job.ModeChangeSquad(x))
    case 24 => var x :- GetJobModeChange(payload); Ok(Job.ModeChange(x))
    case 25 => var x :- GetJobSacrificeSquad(payload); Ok(Job.SacrificeSquad(x))
    case 26 => var x :- GetJobUsePortalSquad(payload); Ok(Job.UsePortalSquad(x))
    case 27 => var x :- GetJobChannel(payload); Ok(Job.Channel(x))
    case 28 => Ok(Job.SpawnSquad)
    case 29 => var x :- GetJobLootTargetSquad(payload); Ok(Job.LootTargetSquad(x))
    case 30 => var x :- GetJobMorph(payload); Ok(Job.Morph(x))
    case _ => var x :- GetJobUnknown(payload); Ok(Job.Unknown(x))
  }

  function JobFromJson(j: Json, prior: Job): Outcome<Job>
  {
    match Select(JobLabels, j)
    case NoItems => Err(InvalidJson)
    case Unlabelled => Ok(prior)
    case Selected(index, payload) => JobCase(index, payload)
  }

  function GetJob(j: Json): Outcome<Job>
  {
    JobFromJson(j, Job.Invalid)
  }

  // the table is checked in two halves, and across them, to keep each proof small
  lemma JobLabelsDistinctHead()
    ensures forall i, k :: 0 <= i < k < 15 ==> JobLabels[i] != JobLabels[k]
  {
  }

  lemma JobLabelsDistinctTail()
    ensures forall i, k :: 15 <= i < k < |JobLabels| ==> JobLabels[i] != JobLabels[k]
  {
  }

  lemma JobLabelsAcross()
    ensures forall i, k :: 0 <= i < 15 <= k < |JobLabels| ==> JobLabels[i] != JobLabels[k]
  {
  }

  /** No label of `JobLabels` occurs twice. */
  lemma JobLabelsDistinct()
    ensures Distinct(JobLabels)
  {
    JobLabelsDistinctHead();
    JobLabelsDistinctTail();
    JobLabelsAcross();
  }

  /** The round trip for cases 0 to 2, proved apart to keep each proof small. */
  lemma JobRoundTripPart1(v: Job, prior: Job)
    requires 0 <= JobIndex(v) <= 2
    ensures hide *; JobToJson(v).Ok? <==> JobEncodable(v)
    ensures hide *; JobEncodable(v) ==> JobFromJson(JobToJson(v).value, prior) == Ok(v)
  {
    JobLabelsDistinct();
    hide JobGotoToJson, JobGotoFromJson, JobAttackMeleeToJson, JobAttackMeleeFromJson, JobAttackMeleeEncodable, JobCastSpellToJson, JobCastSpellFromJson, JobCastSpellEncodable, JobTalkToJson, JobTalkFromJson, JobScriptTalkToJson, JobScriptTalkFromJson, JobFreezeToJson, JobFreezeFromJson, JobSpawnToJson, JobSpawnFromJson, JobAttackSquadToJson, JobAttackSquadFromJson, JobAttackSquadEncodable, JobCastSpellSquadToJson, JobCastSpellSquadFromJson, JobCastSpellSquadEncodable, JobPushBackToJson, JobPushBackFromJson, JobStampedeToJson, JobStampedeFromJson, JobStampedeEncodable, JobFlameThrowerToJson, JobFlameThrowerFromJson, JobFlameThrowerEncodable, JobConstructToJson, JobConstructFromJson, JobCrushToJson, JobCrushFromJson, JobMountBarrierSquadToJson, JobMountBarrierSquadFromJson, JobMountBarrierToJson, JobMountBarrierFromJson, JobModeChangeSquadToJson, JobModeChangeSquadFromJson, JobModeChangeToJson, JobModeChangeFromJson, JobSacrificeSquadToJson, JobSacrificeSquadFromJson, JobUsePortalSquadToJson, JobUsePortalSquadFromJson, JobChannelToJson, JobChannelFromJson, JobLootTargetSquadToJson, JobLootTargetSquadFromJson, JobMorphToJson, JobMorphFromJson, JobMorphEncodable, JobUnknownToJson, JobUnknownFromJson, Select, Items, LastIndexOf, Distinct;
    match v
    case Invalid =>
    case NoJob => SelectEncoded(JobLabels, 1, MarkerJson("JobNoJob"));
    case Idle => SelectEncoded(JobLabels, 2, MarkerJson("JobIdle"));
    case _ => assert false;
  }

  /** The round trip for cases 3 to 5, proved apart to keep each proof small. */
  lemma JobRoundTripPart2(v: Job, prior: Job)
    requires 3 <= JobIndex(v) <= 5
    ensures hide *; JobToJson(v).Ok? <==> JobEncodable(v)
    ensures hide *; JobEncodable(v) ==> JobFromJson(JobToJson(v).value, prior) == Ok(v)
  {
    JobLabelsDistinct();
    hide JobGotoToJson, JobGotoFromJson, JobAttackMeleeToJson, JobAttackMeleeFromJson, JobAttackMeleeEncodable, JobCastSpellToJson, JobCastSpellFromJson, JobCastSpellEncodable, JobTalkToJson, JobTalkFromJson, JobScriptTalkToJson, JobScriptTalkFromJson, JobFreezeToJson, JobFreezeFromJson, JobSpawnToJson, JobSpawnFromJson, JobAttackSquadToJson, JobAttackSquadFromJson, JobAttackSquadEncodable, JobCastSpellSquadToJson, JobCastSpellSquadFromJson, JobCastSpellSquadEncodable, JobPushBackToJson, JobPushBackFromJson, JobStampedeToJson, JobStampedeFromJson, JobStampedeEncodable, JobFlameThrowerToJson, JobFlameThrowerFromJson, JobFlameThrowerEncodable, JobConstructToJson, JobConstructFromJson, JobCrushToJson, JobCrushFromJson, JobMountBarrierSquadToJson, JobMountBarrierSquadFromJson, JobMountBarrierToJson, JobMountBarrierFromJson, JobModeChangeSquadToJson, JobModeChangeSquadFromJson, JobModeChangeToJson, JobModeChangeFromJson, JobSacrificeSquadToJson, JobSacrificeSquadFromJson, JobUsePortalSquadToJson, JobUsePortalSquadFromJson, JobChannelToJson, JobChannelFromJson, JobLootTargetSquadToJson, JobLootTargetSquadFromJson, JobMorphToJson, JobMorphFromJson, JobMorphEncodable, JobUnknownToJson, JobUnknownFromJson, Select, Items, LastIndexOf, Distinct;
    match v
    case Goto(p) =>
      JobGotoRoundTrip(p);
      if JobGotoToJson(p).Ok? {
        SelectEncoded(JobLabels, 3, JobGotoToJson(p).value);
      }
    case AttackMelee(p) =>
      JobAttackMeleeRoundTrip(p);
      if JobAttackMeleeToJson(p).Ok? {
        SelectEncoded(JobLabels, 4, JobAttackMeleeToJson(p).value);
      }
    case CastSpell(p) =>
      JobCastSpellRoundTrip(p);
      if JobCastSpellToJson(p).Ok? {
        SelectEncoded(JobLabels, 5, JobCastSpellToJson(p).value);
      }
    case _ => assert false;
  }

  /** The round trip for cases 6 to 8, proved apart to keep each proof small. */
  lemma JobRoundTripPart3(v: Job, prior: Job)
    requires 6 <= JobIndex(v) <= 8
    ensures hide *; JobToJson(v).Ok? <==> JobEncodable(v)
    ensures hide *; JobEncodable(v) ==> JobFromJson(JobToJson(v).value, prior) == Ok(v)
  {
    JobLabelsDistinct();
    hide JobGotoToJson, JobGotoFromJson, JobAttackMeleeToJson, JobAttackMeleeFromJson, JobAttackMeleeEncodable, JobCastSpellToJson, JobCastSpellFromJson, JobCastSpellEncodable, JobTalkToJson, JobTalkFromJson, JobScriptTalkToJson, JobScriptTalkFromJson, JobFreezeToJson, JobFreezeFromJson, JobSpawnToJson, JobSpawnFromJson, JobAttackSquadToJson, JobAttackSquadFromJson, JobAttackSquadEncodable, JobCastSpellSquadToJson, JobCastSpellSquadFromJson, JobCastSpellSquadEncodable, JobPushBackToJson, JobPushBackFromJson, JobStampedeToJson, JobStampedeFromJson, JobStampedeEncodable, JobFlameThrowerToJson, JobFlameThrowerFromJson, JobFlameThrowerEncodable, JobConstructToJson, JobConstructFromJson, JobCrushToJson, JobCrushFromJson, JobMountBarrierSquadToJson, JobMountBarrierSquadFromJson, JobMountBarrierToJson, JobMountBarrierFromJson, JobModeChangeSquadToJson, JobModeChangeSquadFromJson, JobModeChangeToJson, JobModeChangeFromJson, JobSacrificeSquadToJson, JobSacrificeSquadFromJson, JobUsePortalSquadToJson, JobUsePortalSquadFromJson, JobChannelToJson, JobChannelFromJson, JobLootTargetSquadToJson, JobLootTargetSquadFromJson, JobMorphToJson, JobMorphFromJson, JobMorphEncodable, JobUnknownToJson, JobUnknownFromJson, Select, Items, LastIndexOf, Distinct;
    match v
    case Die => SelectEncoded(JobLabels, 6, MarkerJson("JobDie"));
    case Talk(p) =>
      JobTalkRoundTrip(p);
      if JobTalkToJson(p).Ok? {
        SelectEncoded(JobLabels, 7, JobTalkToJson(p).value);
      }
    case ScriptTalk(p) =>
      JobScriptTalkRoundTrip(p);
      if JobScriptTalkToJson(p).Ok? {
        SelectEncoded(JobLabels, 8, JobScriptTalkToJson(p).value);
      }
    case _ => assert false;
  }

  /** The round trip for cases 9 to 11, proved apart to keep each proof small. */
  lemma JobRoundTripPart4(v: Job, prior: Job)
    requires 9 <= JobIndex(v) <= 11
    ensures hide *; JobToJson(v).Ok? <==> JobEncodable(v)
    ensures hide *; JobEncodable(v) ==> JobFromJson(JobToJson(v).value, prior) == Ok(v)
  {
    JobLabelsDistinct();
    hide JobGotoToJson, JobGotoFromJson, JobAttackMeleeToJson, JobAttackMeleeFromJson, JobAttackMeleeEncodable, JobCastSpellToJson, JobCastSpellFromJson, JobCastSpellEncodable, JobTalkToJson, JobTalkFromJson, JobScriptTalkToJson, JobScriptTalkFromJson, JobFreezeToJson, JobFreezeFromJson, JobSpawnToJson, JobSpawnFromJson, JobAttackSquadToJson, JobAttackSquadFromJson, JobAttackSquadEncodable, JobCastSpellSquadToJson, JobCastSpellSquadFromJson, JobCastSpellSquadEncodable, JobPushBackToJson, JobPushBackFromJson, JobStampedeToJson, JobStampedeFromJson, JobStampedeEncodable, JobFlameThrowerToJson, JobFlameThrowerFromJson, JobFlameThrowerEncodable, JobConstructToJson, JobConstructFromJson, JobCrushToJson, JobCrushFromJson, JobMountBarrierSquadToJson, JobMountBarrierSquadFromJson, JobMountBarrierToJson, JobMountBarrierFromJson, JobModeChangeSquadToJson, JobModeChangeSquadFromJson, JobModeChangeToJson, JobModeChangeFromJson, JobSacrificeSquadToJson, JobSacrificeSquadFromJson, JobUsePortalSquadToJson, JobUsePortalSquadFromJson, JobChannelToJson, JobChannelFromJson, JobLootTargetSquadToJson, JobLootTargetSquadFromJson, JobMorphToJson, JobMorphFromJson, JobMorphEncodable, JobUnknownToJson, JobUnknownFromJson, Select, Items, LastIndexOf, Distinct;
    match v
    case Freeze(p) =>
      JobFreezeRoundTrip(p);
      if JobFreezeToJson(p).Ok? {
        SelectEncoded(JobLabels, 9, JobFreezeToJson(p).value);
      }
    case Spawn(p) =>
      JobSpawnRoundTrip(p);
      if JobSpawnToJson(p).Ok? {
        SelectEncoded(JobLabels, 10, JobSpawnToJson(p).value);
      }
    case Cheer => SelectEncoded(JobLabels, 11, MarkerJson("JobCheer"));
    case _ => assert false;
  }

  /** The round trip for cases 12 to 14, proved apart to keep each proof small. */
  lemma JobRoundTripPart5(v: Job, prior: Job)
    requires 12 <= JobIndex(v) <= 14
    ensures hide *; JobToJson(v).Ok? <==> JobEncodable(v)
    ensures hide *; JobEncodable(v) ==> JobFromJson(JobToJson(v).value, prior) == Ok(v)
  {
    JobLabelsDistinct();
    hide JobGotoToJson, JobGotoFromJson, JobAttackMeleeToJson, JobAttackMeleeFromJson, JobAttackMeleeEncodable, JobCastSpellToJson, JobCastSpellFromJson, JobCastSpellEncodable, JobTalkToJson, JobTalkFromJson, JobScriptTalkToJson, JobScriptTalkFromJson, JobFreezeToJson, JobFreezeFromJson, JobSpawnToJson, JobSpawnFromJson, JobAttackSquadToJson, JobAttackSquadFromJson, JobAttackSquadEncodable, JobCastSpellSquadToJson, JobCastSpellSquadFromJson, JobCastSpellSquadEncodable, JobPushBackToJson, JobPushBackFromJson, JobStampedeToJson, JobStampedeFromJson, JobStampedeEncodable, JobFlameThrowerToJson, JobFlameThrowerFromJson, JobFlameThrowerEncodable, JobConstructToJson, JobConstructFromJson, JobCrushToJson, JobCrushFromJson, JobMountBarrierSquadToJson, JobMountBarrierSquadFromJson, JobMountBarrierToJson, JobMountBarrierFromJson, JobModeChangeSquadToJson, JobModeChangeSquadFromJson, JobModeChangeToJson, JobModeChangeFromJson, JobSacrificeSquadToJson, JobSacrificeSquadFromJson, JobUsePortalSquadToJson, JobUsePortalSquadFromJson, JobChannelToJson, JobChannelFromJson, JobLootTargetSquadToJson, JobLootTargetSquadFromJson, JobMorphToJson, JobMorphFromJson, JobMorphEncodable, JobUnknownToJson, JobUnknownFromJson, Select, Items, LastIndexOf, Distinct;
    match v
    case AttackSquad(p) =>
      JobAttackSquadRoundTrip(p);
      if JobAttackSquadToJson(p).Ok? {
        SelectEncoded(JobLabels, 12, JobAttackSquadToJson(p).value);
      }
    case CastSpellSquad(p) =>
      JobCastSpellSquadRoundTrip(p);
      if JobCastSpellSquadToJson(p).Ok? {
        SelectEncoded(JobLabels, 13, JobCastSpellSquadToJson(p).value);
      }
    case PushBack(p) =>
      JobPushBackRoundTrip(p);
      if JobPushBackToJson(p).Ok? {
        SelectEncoded(JobLabels, 14, JobPushBackToJson(p).value);
      }
    case _ => assert false;
  }

  /** The round trip for cases 15 to 17, proved apart to keep each proof small. */
  lemma JobRoundTripPart6(v: Job, prior: Job)
    requires 15 <= JobIndex(v) <= 17
    ensures hide *; JobToJson(v).Ok? <==> JobEncodable(v)
    ensures hide *; JobEncodable(v) ==> JobFromJson(JobToJson(v).value, prior) == Ok(v)
  {
    JobLabelsDistinct();
    hide JobGotoToJson, JobGotoFromJson, JobAttackMeleeToJson, JobAttackMeleeFromJson, JobAttackMeleeEncodable, JobCastSpellToJson, JobCastSpellFromJson, JobCastSpellEncodable, JobTalkToJson, JobTalkFromJson, JobScriptTalkToJson, JobScriptTalkFromJson, JobFreezeToJson, JobFreezeFromJson, JobSpawnToJson, JobSpawnFromJson, JobAttackSquadToJson, JobAttackSquadFromJson, JobAttackSquadEncodable, JobCastSpellSquadToJson, JobCastSpellSquadFromJson, JobCastSpellSquadEncodable, JobPushBackToJson, JobPushBackFromJson, JobStampedeToJson, JobStampedeFromJson, JobStampedeEncodable, JobFlameThrowerToJson, JobFlameThrowerFromJson, JobFlameThrowerEncodable, JobConstructToJson, JobConstructFromJson, JobCrushToJson, JobCrushFromJson, JobMountBarrierSquadToJson, JobMountBarrierSquadFromJson, JobMountBarrierToJson, JobMountBarrierFromJson, JobModeChangeSquadToJson, JobModeChangeSquadFromJson, JobModeChangeToJson, JobModeChangeFromJson, JobSacrificeSquadToJson, JobSacrificeSquadFromJson, JobUsePortalSquadToJson, JobUsePortalSquadFromJson, JobChannelToJson, JobChannelFromJson, JobLootTargetSquadToJson, JobLootTargetSquadFromJson, JobMorphToJson, JobMorphFromJson, JobMorphEncodable, JobUnknownToJson, JobUnknownFromJson, Select, Items, LastIndexOf, Distinct;
    match v
    case Stampede(p) =>
      JobStampedeRoundTrip(p);
      if JobStampedeToJson(p).Ok? {
        SelectEncoded(JobLabels, 15, JobStampedeToJson(p).value);
      }
    case BarrierCrush => SelectEncoded(JobLabels, 16, MarkerJson("JobBarrierCrush"));
    case BarrierGateToggle => SelectEncoded(JobLabels, 17, MarkerJson("JobBarrierGateToggle"));
    case _ => assert false;
  }

  /** The round trip for cases 18 to 20, proved apart to keep each proof small. */
  lemma JobRoundTripPart7(v: Job, prior: Job)
    requires 18 <= JobIndex(v) <= 20
    ensures hide *; JobToJson(v).Ok? <==> JobEncodable(v)
    ensures hide *; JobEncodable(v) ==> JobFromJson(JobToJson(v).value, prior) == Ok(v)
  {
    JobLabelsDistinct();
    hide JobGotoToJson, JobGotoFromJson, JobAttackMeleeToJson, JobAttackMeleeFromJson, JobAttackMeleeEncodable, JobCastSpellToJson, JobCastSpellFromJson, JobCastSpellEncodable, JobTalkToJson, JobTalkFromJson, JobScriptTalkToJson, JobScriptTalkFromJson, JobFreezeToJson, JobFreezeFromJson, JobSpawnToJson, JobSpawnFromJson, JobAttackSquadToJson, JobAttackSquadFromJson, JobAttackSquadEncodable, JobCastSpellSquadToJson, JobCastSpellSquadFromJson, JobCastSpellSquadEncodable, JobPushBackToJson, JobPushBackFromJson, JobStampedeToJson, JobStampedeFromJson, JobStampedeEncodable, JobFlameThrowerToJson, JobFlameThrowerFromJson, JobFlameThrowerEncodable, JobConstructToJson, JobConstructFromJson, JobCrushToJson, JobCrushFromJson, JobMountBarrierSquadToJson, JobMountBarrierSquadFromJson, JobMountBarrierToJson, JobMountBarrierFromJson, JobModeChangeSquadToJson, JobModeChangeSquadFromJson, JobModeChangeToJson, JobModeChangeFromJson, JobSacrificeSquadToJson, JobSacrificeSquadFromJson, JobUsePortalSquadToJson, JobUsePortalSquadFromJson, JobChannelToJson, JobChannelFromJson, JobLootTargetSquadToJson, JobLootTargetSquadFromJson, JobMorphToJson, JobMorphFromJson, JobMorphEncodable, JobUnknownToJson, JobUnknownFromJson, Select, Items, LastIndexOf, Distinct;
    match v
    case FlameThrower(p) =>
      JobFlameThrowerRoundTrip(p);
      if JobFlameThrowerToJson(p).Ok? {
        SelectEncoded(JobLabels, 18, JobFlameThrowerToJson(p).value);
      }
    case Construct(p) =>
      JobConstructRoundTrip(p);
      if JobConstructToJson(p).Ok? {
        SelectEncoded(JobLabels, 19, JobConstructToJson(p).value);
      }
    case Crush(p) =>
      JobCrushRoundTrip(p);
      if JobCrushToJson(p).Ok? {
        SelectEncoded(JobLabels, 20, JobCrushToJson(p).value);
      }
    case _ => assert false;
  }

  /** The round trip for cases 21 to 23, proved apart to keep each proof small. */
  lemma JobRoundTripPart8(v: Job, prior: Job)
    requires 21 <= JobIndex(v) <= 23
    ensures hide *; JobToJson(v).Ok? <==> JobEncodable(v)
    ensures hide *; JobEncodable(v) ==> JobFromJson(JobToJson(v).value, prior) == Ok(v)
  {
    JobLabelsDistinct();
    hide JobGotoToJson, JobGotoFromJson, JobAttackMeleeToJson, JobAttackMeleeFromJson, JobAttackMeleeEncodable, JobCastSpellToJson, JobCastSpellFromJson, JobCastSpellEncodable, JobTalkToJson, JobTalkFromJson, JobScriptTalkToJson, JobScriptTalkFromJson, JobFreezeToJson, JobFreezeFromJson, JobSpawnToJson, JobSpawnFromJson, JobAttackSquadToJson, JobAttackSquadFromJson, JobAttackSquadEncodable, JobCastSpellSquadToJson, JobCastSpellSquadFromJson, JobCastSpellSquadEncodable, JobPushBackToJson, JobPushBackFromJson, JobStampedeToJson, JobStampedeFromJson, JobStampedeEncodable, JobFlameThrowerToJson, JobFlameThrowerFromJson, JobFlameThrowerEncodable, JobConstructToJson, JobConstructFromJson, JobCrushToJson, JobCrushFromJson, JobMountBarrierSquadToJson, JobMountBarrierSquadFromJson, JobMountBarrierToJson, JobMountBarrierFromJson, JobModeChangeSquadToJson, JobModeChangeSquadFromJson, JobModeChangeToJson, JobModeChangeFromJson, JobSacrificeSquadToJson, JobSacrificeSquadFromJson, JobUsePortalSquadToJson, JobUsePortalSquadFromJson, JobChannelToJson, JobChannelFromJson, JobLootTargetSquadToJson, JobLootTargetSquadFromJson, JobMorphToJson, JobMorphFromJson, JobMorphEncodable, JobUnknownToJson, JobUnknownFromJson, Select, Items, LastIndexOf, Distinct;
    match v
    case MountBarrierSquad(p) =>
      JobMountBarrierSquadRoundTrip(p);
      if JobMountBarrierSquadToJson(p).Ok? {
        SelectEncoded(JobLabels, 21, JobMountBarrierSquadToJson(p).value);
      }
    case MountBarrier(p) =>
      JobMountBarrierRoundTrip(p);
      if JobMountBarrierToJson(p).Ok? {
        SelectEncoded(JobLabels, 22, JobMountBarrierToJson(p).value);
      }
    case ModeChangeSquad(p) =>
      JobModeChangeSquadRoundTrip(p);
      if JobModeChangeSquadToJson(p).Ok? {
        SelectEncoded(JobLabels, 23, JobModeChangeSquadToJson(p).value);
      }
    case _ => assert false;
  }

  /** The round trip for cases 24 to 26, proved apart to keep each proof small. */
  lemma JobRoundTripPart9(v: Job, prior: Job)
    requires 24 <= JobIndex(v) <= 26
    ensures hide *; JobToJson(v).Ok? <==> JobEncodable(v)
    ensures hide *; JobEncodable(v) ==> JobFromJson(JobToJson(v).value, prior) == Ok(v)
  {
    JobLabelsDistinct();
    hide JobGotoToJson, JobGotoFromJson, JobAttackMeleeToJson, JobAttackMeleeFromJson, JobAttackMeleeEncodable, JobCastSpellToJson, JobCastSpellFromJson, JobCastSpellEncodable, JobTalkToJson, JobTalkFromJson, JobScriptTalkToJson, JobScriptTalkFromJson, JobFreezeToJson, JobFreezeFromJson, JobSpawnToJson, JobSpawnFromJson, JobAttackSquadToJson, JobAttackSquadFromJson, JobAttackSquadEncodable, JobCastSpellSquadToJson, JobCastSpellSquadFromJson, JobCastSpellSquadEncodable, JobPushBackToJson, JobPushBackFromJson, JobStampedeToJson, JobStampedeFromJson, JobStampedeEncodable, JobFlameThrowerToJson, JobFlameThrowerFromJson, JobFlameThrowerEncodable, JobConstructToJson, JobConstructFromJson, JobCrushToJson, JobCrushFromJson, JobMountBarrierSquadToJson, JobMountBarrierSquadFromJson, JobMountBarrierToJson, JobMountBarrierFromJson, JobModeChangeSquadToJson, JobModeChangeSquadFromJson, JobModeChangeToJson, JobModeChangeFromJson, JobSacrificeSquadToJson, JobSacrificeSquadFromJson, JobUsePortalSquadToJson, JobUsePortalSquadFromJson, JobChannelToJson, JobChannelFromJson, JobLootTargetSquadToJson, JobLootTargetSquadFromJson, JobMorphToJson, JobMorphFromJson, JobMorphEncodable, JobUnknownToJson, JobUnknownFromJson, Select, Items, LastIndexOf, Distinct;
    match v
    case ModeChange(p) =>
      JobModeChangeRoundTrip(p);
      if JobModeChangeToJson(p).Ok? {
        SelectEncoded(JobLabels, 24, JobModeChangeToJson(p).value);
      }
    case SacrificeSquad(p) =>
      JobSacrificeSquadRoundTrip(p);
      if JobSacrificeSquadToJson(p).Ok? {
        SelectEncoded(JobLabels, 25, JobSacrificeSquadToJson(p).value);
      }
    case UsePortalSquad(p) =>
      JobUsePortalSquadRoundTrip(p);
      if JobUsePortalSquadToJson(p).Ok? {
        SelectEncoded(JobLabels, 26, JobUsePortalSquadToJson(p).value);
      }
    case _ => assert false;
  }

  /** The round trip for cases 27 to 29, proved apart to keep each proof small. */
  lemma JobRoundTripPart10(v: Job, prior: Job)
    requires 27 <= JobIndex(v) <= 29
    ensures hide *; JobToJson(v).Ok? <==> JobEncodable(v)
    ensures hide *; JobEncodable(v) ==> JobFromJson(JobToJson(v).value, prior) == Ok(v)
  {
    JobLabelsDistinct();
    hide JobGotoToJson, JobGotoFromJson, JobAttackMeleeToJson, JobAttackMeleeFromJson, JobAttackMeleeEncodable, JobCastSpellToJson, JobCastSpellFromJson, JobCastSpellEncodable, JobTalkToJson, JobTalkFromJson, JobScriptTalkToJson, JobScriptTalkFromJson, JobFreezeToJson, JobFreezeFromJson, JobSpawnToJson, JobSpawnFromJson, JobAttackSquadToJson, JobAttackSquadFromJson, JobAttackSquadEncodable, JobCastSpellSquadToJson, JobCastSpellSquadFromJson, JobCastSpellSquadEncodable, JobPushBackToJson, JobPushBackFromJson, JobStampedeToJson, JobStampedeFromJson, JobStampedeEncodable, JobFlameThrowerToJson, JobFlameThrowerFromJson, JobFlameThrowerEncodable, JobConstructToJson, JobConstructFromJson, JobCrushToJson, JobCrushFromJson, JobMountBarrierSquadToJson, JobMountBarrierSquadFromJson, JobMountBarrierToJson, JobMountBarrierFromJson, JobModeChangeSquadToJson, JobModeChangeSquadFromJson, JobModeChangeToJson, JobModeChangeFromJson, JobSacrificeSquadToJson, JobSacrificeSquadFromJson, JobUsePortalSquadToJson, JobUsePortalSquadFromJson, JobChannelToJson, JobChannelFromJson, JobLootTargetSquadToJson, JobLootTargetSquadFromJson, JobMorphToJson, JobMorphFromJson, JobMorphEncodable, JobUnknownToJson, JobUnknownFromJson, Select, Items, LastIndexOf, Distinct;
    match v
    case Channel(p) =>
      JobChannelRoundTrip(p);
      if JobChannelToJson(p).Ok? {
        SelectEncoded(JobLabels, 27, JobChannelToJson(p).value);
      }
    case SpawnSquad => SelectEncoded(JobLabels, 28, MarkerJson("JobSpawnSquad"));
    case LootTargetSquad(p) =>
      JobLootTargetSquadRoundTrip(p);
      if JobLootTargetSquadToJson(p).Ok? {
        SelectEncoded(JobLabels, 29, JobLootTargetSquadToJson(p).value);
      }
    case _ => assert false;
  }

  /** The round trip for cases 30 to 31, proved apart to keep each proof small. */
  lemma JobRoundTripPart11(v: Job, prior: Job)
    requires 30 <= JobIndex(v) <= 31
    ensures hide *; JobToJson(v).Ok? <==> JobEncodable(v)
    ensures hide *; JobEncodable(v) ==> JobFromJson(JobToJson(v).value, prior) == Ok(v)
  {
    JobLabelsDistinct();
    hide JobGotoToJson, JobGotoFromJson, JobAttackMeleeToJson, JobAttackMeleeFromJson, JobAttackMeleeEncodable, JobCastSpellToJson, JobCastSpellFromJson, JobCastSpellEncodable, JobTalkToJson, JobTalkFromJson, JobScriptTalkToJson, JobScriptTalkFromJson, JobFreezeToJson, JobFreezeFromJson, JobSpawnToJson, JobSpawnFromJson, JobAttackSquadToJson, JobAttackSquadFromJson, JobAttackSquadEncodable, JobCastSpellSquadToJson, JobCastSpellSquadFromJson, JobCastSpellSquadEncodable, JobPushBackToJson, JobPushBackFromJson, JobStampedeToJson, JobStampedeFromJson, JobStampedeEncodable, JobFlameThrowerToJson, JobFlameThrowerFromJson, JobFlameThrowerEncodable, JobConstructToJson, JobConstructFromJson, JobCrushToJson, JobCrushFromJson, JobMountBarrierSquadToJson, JobMountBarrierSquadFromJson, JobMountBarrierToJson, JobMountBarrierFromJson, JobModeChangeSquadToJson, JobModeChangeSquadFromJson, JobModeChangeToJson, JobModeChangeFromJson, JobSacrificeSquadToJson, JobSacrificeSquadFromJson, JobUsePortalSquadToJson, JobUsePortalSquadFromJson, JobChannelToJson, JobChannelFromJson, JobLootTargetSquadToJson, JobLootTargetSquadFromJson, JobMorphToJson, JobMorphFromJson, JobMorphEncodable, JobUnknownToJson, JobUnknownFromJson, Select, Items, LastIndexOf, Distinct;
    match v
    case Morph(p) =>
      JobMorphRoundTrip(p);
      if JobMorphToJson(p).Ok? {
        SelectEncoded(JobLabels, 30, JobMorphToJson(p).value);
      }
    case Unknown(p) =>
      JobUnknownRoundTrip(p);
      if JobUnknownToJson(p).Ok? {
        SelectEncoded(JobLabels, 31, JobUnknownToJson(p).value);
      }
    case _ => assert false;
  }

  lemma JobRoundTrip(v: Job, prior: Job)
    ensures hide *; JobToJson(v).Ok? <==> JobEncodable(v)
    ensures hide *; JobEncodable(v) ==> JobFromJson(JobToJson(v).value, prior) == Ok(v)
  {
    if JobIndex(v) <= 2 {
      JobRoundTripPart1(v, prior);
    } else if JobIndex(v) <= 5 {
      JobRoundTripPart2(v, prior);
    } else if JobIndex(v) <= 8 {
      JobRoundTripPart3(v, prior);
    } else if JobIndex(v) <= 11 {
      JobRoundTripPart4(v, prior);
    } else if JobIndex(v) <= 14 {
      JobRoundTripPart5(v, prior);
    } else if JobIndex(v) <= 17 {
      JobRoundTripPart6(v, prior);
    } else if JobIndex(v) <= 20 {
      JobRoundTripPart7(v, prior);
    } else if JobIndex(v) <= 23 {
      JobRoundTripPart8(v, prior);
    } else if JobIndex(v) <= 26 {
      JobRoundTripPart9(v, prior);
    } else if JobIndex(v) <= 29 {
      JobRoundTripPart10(v, prior);
    } else {
      JobRoundTripPart11(v, prior);
    }
  }

  // Entity
  datatype Entity = Entity(id: EntityId, effects: seq<AbilityEffect>, aspects: seq<Aspect>, job: Job, position: Position, playerEntityId: Option<EntityId>)

  const DefaultEntity: Entity := Entity(0, [], [], Job.Invalid, DefaultPosition, None)

  predicate EntityEncodable(v: Entity)
  {
    hide AbilityEffectEncodable, AspectEncodable, JobEncodable;
    (forall i :: 0 <= i < |v.effects| ==> AbilityEffectEncodable(v.effects[i]))
    && (forall i :: 0 <= i < |v.aspects| ==> AspectEncodable(v.aspects[i]))
    && JobEncodable(v.job)
  }

  function EntityToJson(v: Entity): Outcome<Json>
  {
    hide AbilityEffectToJson, AspectToJson, JobToJson, PositionToJson;
    var j1 := Put(Null, "id", Int(v.id));
    var effectsJson :- SeqToJson(v.effects, AbilityEffectToJson);
    var j2 := Put(j1, "effects", effectsJson);
    var aspectsJson :- SeqToJson(v.aspects, AspectToJson);
    var j3 := Put(j2, "aspects", aspectsJson);
    var jobJson :- JobToJson(v.job);
    var j4 := Put(j3, "job", jobJson);
    var positionJson :- PositionToJson(v.position);
    var j5 := Put(j4, "position", positionJson);
    var j6 := PutOptional(j5, "player_entity_id", if v.playerEntityId.Some? then Some(Int(v.playerEntityId.value)) else None);
    Ok(j6)
  }

  function EntityFromJson(j: Json, prior: Entity): Outcome<Entity>
  {
    hide AbilityEffectFromJson, AspectFromJson, JobFromJson, PositionFromJson;
    var idJson :- At(j, "id");
    var id :- U32FromJson(idJson);
    var effectsJson :- At(j, "effects");
    var effects :- SeqFromJson(effectsJson, GetAbilityEffect);
    var aspectsJson :- At(j, "aspects");
    var aspects :- SeqFromJson(aspectsJson, GetAspect);
    var jobJson :- At(j, "job");
    var job :- JobFromJson(jobJson, prior.job);
    var positionJson :- At(j, "position");
    var position :- PositionFromJson(positionJson, prior.position);
    var playerEntityId :- OptionalAt(j, "player_entity_id", prior.playerEntityId, U32FromJson);
    Ok(Entity(id, effects, aspects, job, position, playerEntityId))
  }

  function GetEntity(j: Json): Outcome<Entity>
  {
    EntityFromJson(j, DefaultEntity)
  }

  /** Each key of the encoded object holds its field, as written. */
  lemma EntityFields(v: Entity)
    requires EntityToJson(v).Ok?
    ensures hide *; var j := EntityToJson(v).value;
      && j.Obj?
      && At(j, "id") == Ok(Int(v.id))
      && SeqToJson(v.effects, AbilityEffectToJson).Ok?
      && At(j, "effects") == Ok(SeqToJson(v.effects, AbilityEffectToJson).value)
      && SeqToJson(v.aspects, AspectToJson).Ok?
      && At(j, "aspects") == Ok(SeqToJson(v.aspects, AspectToJson).value)
      && JobToJson(v.job).Ok?
      && At(j, "job") == Ok(JobToJson(v.job).value)
      && PositionToJson(v.position).Ok?
      && At(j, "position") == Ok(PositionToJson(v.position).value)
      && OptionalAt(j, "player_entity_id", None, U32FromJson) == Ok(v.playerEntityId)
  {
    hide AbilityEffectToJson, AspectToJson, JobToJson, PositionToJson, Put, PutOptional, Get, At, OptionalAt, SeqToJson, IntegerOf;
  }

  lemma EntityRoundTrip(v: Entity)
    ensures hide *; EntityToJson(v).Ok? <==> EntityEncodable(v)
    ensures hide *; EntityToJson(v).Ok? ==> EntityToJson(v).value.Obj?
    ensures hide *; EntityEncodable(v) ==> GetEntity(EntityToJson(v).value) == Ok(v)
  {
    hide AbilityEffectToJson, AbilityEffectFromJson, AbilityEffectEncodable, AspectToJson, AspectFromJson, AspectEncodable, JobToJson, JobFromJson, JobEncodable, PositionToJson, PositionFromJson, Put, PutOptional, Get, At, OptionalAt, EncodeEach, DecodeEach, SeqFromJson, FixedFromJson, IntegerOf, U8FromJson, U16FromJson, U32FromJson, U64FromJson, EnumFromJson, FloatFromJson, BoolFromJson, StringFromJson;
    AbilityEffectSeqRoundTrip(v.effects);
    AspectSeqRoundTrip(v.aspects);
    JobRoundTrip(v.job, Job.Invalid);
    PositionRoundTrip(v.position);
    if EntityToJson(v).Ok? && EntityEncodable(v) {
      EntityFields(v);
      var j := EntityToJson(v).value;
      hide EntityToJson;
      assert U32FromJson(Int(v.id)) == Ok(v.id);
      assert GetEntity(j) == Ok(v);
    }
  }

  // Projectile
  datatype Projectile = Projectile(id: EntityId, position: Position)

  const DefaultProjectile: Projectile := Projectile(0, DefaultPosition)

  function ProjectileToJson(v: Projectile): Outcome<Json>
  {
    hide PositionToJson;
    var j1 := Put(Null, "id", Int(v.id));
    var positionJson :- PositionToJson(v.position);
    var j2 := Put(j1, "position", positionJson);
    Ok(j2)
  }

  function ProjectileFromJson(j: Json, prior: Projectile): Outcome<Projectile>
  {
    hide PositionFromJson;
    var idJson :- At(j, "id");
    var id :- U32FromJson(idJson);
    var positionJson :- At(j, "position");
    var position :- PositionFromJson(positionJson, prior.position);
    Ok(Projectile(id, position))
  }

  function GetProjectile(j: Json): Outcome<Projectile>
  {
    ProjectileFromJson(j, DefaultProjectile)
  }

  /** Each key of the encoded object holds its field, as written. */
  lemma ProjectileFields(v: Projectile)
    requires ProjectileToJson(v).Ok?
    ensures hide *; var j := ProjectileToJson(v).value;
      && j.Obj?
      && At(j, "id") == Ok(Int(v.id))
      && PositionToJson(v.position).Ok?
      && At(j, "position") == Ok(PositionToJson(v.position).value)
  {
    hide PositionToJson, Put, PutOptional, Get, At, OptionalAt, SeqToJson, IntegerOf;
  }

  lemma ProjectileRoundTrip(v: Projectile)
    ensures hide *; ProjectileToJson(v).Ok? && ProjectileToJson(v).value.Obj?
    ensures hide *; GetProjectile(ProjectileToJson(v).value) == Ok(v)
  {
    hide PositionToJson, PositionFromJson, Put, PutOptional, Get, At, OptionalAt, EncodeEach, DecodeEach, SeqFromJson, FixedFromJson, IntegerOf, U8FromJson, U16FromJson, U32FromJson, U64FromJson, EnumFromJson, FloatFromJson, BoolFromJson, StringFromJson;
    PositionRoundTrip(v.position);
    if ProjectileToJson(v).Ok? {
      ProjectileFields(v);
      var j := ProjectileToJson(v).value;
      hide ProjectileToJson;
      assert U32FromJson(Int(v.id)) == Ok(v.id);
      assert GetProjectile(j) == Ok(v);
    }
  }

  /** A vector of `Projectile` reads back as written. */
  lemma ProjectileSeqRoundTrip(s: seq<Projectile>)
    ensures hide *; SeqToJson(s, ProjectileToJson).Ok?
    ensures hide *; SeqFromJson(SeqToJson(s, ProjectileToJson).value, GetProjectile) == Ok(s)
  {
    hide ProjectileToJson, ProjectileFromJson;
    forall i | 0 <= i < |s|
      ensures ProjectileToJson(s[i]).Ok? && GetProjectile(ProjectileToJson(s[i]).value) == Ok(s[i])
    {
      ProjectileRoundTrip(s[i]);
    }
    SeqRoundTrip(s, ProjectileToJson, GetProjectile);
  }

  // PowerSlot
  datatype PowerSlot = PowerSlot(entity: Entity, resId: u32, state: u32, team: u8)

  const DefaultPowerSlot: PowerSlot := PowerSlot(DefaultEntity, 0, 0, 0)

  predicate PowerSlotEncodable(v: PowerSlot)
  {
    hide EntityEncodable;
    EntityEncodable(v.entity)
  }

  function PowerSlotToJson(v: PowerSlot): Outcome<Json>
  {
    hide EntityToJson;
    var entityJson :- EntityToJson(v.entity);
    var j1 := Put(Null, "entity", entityJson);
    var j2 := Put(j1, "res_id", Int(v.resId));
    var j3 := Put(j2, "state", Int(v.state));
    var j4 := Put(j3, "team", Int(v.team));
    Ok(j4)
  }

  function PowerSlotFromJson(j: Json, prior: PowerSlot): Outcome<PowerSlot>
  {
    hide EntityFromJson;
    var entityJson :- At(j, "entity");
    var entity :- EntityFromJson(entityJson, prior.entity);
    var resIdJson :- At(j, "res_id");
    var resId :- U32FromJson(resIdJson);
    var stateJson :- At(j, "state");
    var state :- U32FromJson(stateJson);
    var teamJson :- At(j, "team");
    var team :- U8FromJson(teamJson);
    Ok(PowerSlot(entity, resId, state, team))
  }

  function GetPowerSlot(j: Json): Outcome<PowerSlot>
  {
    PowerSlotFromJson(j, DefaultPowerSlot)
  }

  /** Each key of the encoded object holds its field, as written. */
  lemma PowerSlotFields(v: PowerSlot)
    requires PowerSlotToJson(v).Ok?
    ensures hide *; var j := PowerSlotToJson(v).value;
      && j.Obj?
      && EntityToJson(v.entity).Ok?
      && At(j, "entity") == Ok(EntityToJson(v.entity).value)
      && At(j, "res_id") == Ok(Int(v.resId))
      && At(j, "state") == Ok(Int(v.state))
      && At(j, "team") == Ok(Int(v.team))
  {
    hide EntityToJson, Put, PutOptional, Get, At, OptionalAt, SeqToJson, IntegerOf;
  }

  lemma PowerSlotRoundTrip(v: PowerSlot)
    ensures hide *; PowerSlotToJson(v).Ok? <==> PowerSlotEncodable(v)
    ensures hide *; PowerSlotToJson(v).Ok? ==> PowerSlotToJson(v).value.Obj?
    ensures hide *; PowerSlotEncodable(v) ==> GetPowerSlot(PowerSlotToJson(v).value) == Ok(v)
  {
    hide EntityToJson, EntityFromJson, EntityEncodable, Put, PutOptional, Get, At, OptionalAt, EncodeEach, DecodeEach, SeqFromJson, FixedFromJson, IntegerOf, U8FromJson, U16FromJson, U32FromJson, U64FromJson, EnumFromJson, FloatFromJson, BoolFromJson, StringFromJson;
    EntityRoundTrip(v.entity);
    if PowerSlotToJson(v).Ok? && PowerSlotEncodable(v) {
      PowerSlotFields(v);
      var j := PowerSlotToJson(v).value;
      hide PowerSlotToJson;
      assert U32FromJson(Int(v.resId)) == Ok(v.resId);
      assert U32FromJson(Int(v.state)) == Ok(v.state);
      assert U8FromJson(Int(v.team)) == Ok(v.team);
      assert GetPowerSlot(j) == Ok(v);
    }
  }

  /** A vector of `PowerSlot` reads back as written. */
  lemma PowerSlotSeqRoundTrip(s: seq<PowerSlot>)
    ensures hide *; SeqToJson(s, PowerSlotToJson).Ok? <==> forall i :: 0 <= i < |s| ==> PowerSlotEncodable(s[i])
    ensures hide *; (forall i :: 0 <= i < |s| ==> PowerSlotEncodable(s[i])) ==> SeqFromJson(SeqToJson(s, PowerSlotToJson).value, GetPowerSlot) == Ok(s)
  {
    hide PowerSlotToJson, PowerSlotFromJson, PowerSlotEncodable;
    forall i | 0 <= i < |s|
      ensures PowerSlotToJson(s[i]).Ok? <==> PowerSlotEncodable(s[i])
      ensures PowerSlotEncodable(s[i]) ==> GetPowerSlot(PowerSlotToJson(s[i]).value) == Ok(s[i])
    {
      PowerSlotRoundTrip(s[i]);
    }
    EncodeEachOk(s, PowerSlotToJson);
    if forall i :: 0 <= i < |s| ==> PowerSlotEncodable(s[i]) {
      SeqRoundTrip(s, PowerSlotToJson, GetPowerSlot);
    }
  }

  // TokenSlot
  datatype TokenSlot = TokenSlot(entity: Entity, color: OrbColor)

  const DefaultTokenSlot: TokenSlot := TokenSlot(DefaultEntity, 0)

  predicate TokenSlotEncodable(v: TokenSlot)
  {
    hide EntityEncodable;
    EntityEncodable(v.entity)
  }

  function TokenSlotToJson(v: TokenSlot): Outcome<Json>
  {
    hide EntityToJson;
    var entityJson :- EntityToJson(v.entity);
    var j1 := Put(Null, "entity", entityJson);
    var j2 := Put(j1, "color", Int(v.color));
    Ok(j2)
  }

  function TokenSlotFromJson(j: Json, prior: TokenSlot): Outcome<TokenSlot>
  {
    hide EntityFromJson;
    var entityJson :- At(j, "entity");
    var entity :- EntityFromJson(entityJson, prior.entity);
    var colorJson :- At(j, "color");
    var color :- EnumFromJson(colorJson);
    Ok(TokenSlot(entity, color))
  }

  function GetTokenSlot(j: Json): Outcome<TokenSlot>
  {
    TokenSlotFromJson(j, DefaultTokenSlot)
  }

  /** Each key of the encoded object holds its field, as written. */
  lemma TokenSlotFields(v: TokenSlot)
    requires TokenSlotToJson(v).Ok?
    ensures hide *; var j := TokenSlotToJson(v).value;
      && j.Obj?
      && EntityToJson(v.entity).Ok?
      && At(j, "entity") == Ok(EntityToJson(v.entity).value)
      && At(j, "color") == Ok(Int(v.color))
  {
    hide EntityToJson, Put, PutOptional, Get, At, OptionalAt, SeqToJson, IntegerOf;
  }

  lemma TokenSlotRoundTrip(v: TokenSlot)
    ensures hide *; TokenSlotToJson(v).Ok? <==> TokenSlotEncodable(v)
    ensures hide *; TokenSlotToJson(v).Ok? ==> TokenSlotToJson(v).value.Obj?
    ensures hide *; TokenSlotEncodable(v) ==> GetTokenSlot(TokenSlotToJson(v).value) == Ok(v)
  {
    hide EntityToJson, EntityFromJson, EntityEncodable, Put, PutOptional, Get, At, OptionalAt, EncodeEach, DecodeEach, SeqFromJson, FixedFromJson, IntegerOf, U8FromJson, U16FromJson, U32FromJson, U64FromJson, EnumFromJson, FloatFromJson, BoolFromJson, StringFromJson;
    EntityRoundTrip(v.entity);
    if TokenSlotToJson(v).Ok? && TokenSlotEncodable(v) {
      TokenSlotFields(v);
      var j := TokenSlotToJson(v).value;
      hide TokenSlotToJson;
      assert EnumFromJson(Int(v.color)) == Ok(v.color);
      assert GetTokenSlot(j) == Ok(v);
    }
  }

  /** A vector of `TokenSlot` reads back as written. */
  lemma TokenSlotSeqRoundTrip(s: seq<TokenSlot>)
    ensures hide *; SeqToJson(s, TokenSlotToJson).Ok? <==> forall i :: 0 <= i < |s| ==> TokenSlotEncodable(s[i])
    ensures hide *; (forall i :: 0 <= i < |s| ==> TokenSlotEncodable(s[i])) ==> SeqFromJson(SeqToJson(s, TokenSlotToJson).value, GetTokenSlot) == Ok(s)
  {
    hide TokenSlotToJson, TokenSlotFromJson, TokenSlotEncodable;
    forall i | 0 <= i < |s|
      ensures TokenSlotToJson(s[i]).Ok? <==> TokenSlotEncodable(s[i])
      ensures TokenSlotEncodable(s[i]) ==> GetTokenSlot(TokenSlotToJson(s[i]).value) == Ok(s[i])
    {
      TokenSlotRoundTrip(s[i]);
    }
    EncodeEachOk(s, TokenSlotToJson);
    if forall i :: 0 <= i < |s| ==> TokenSlotEncodable(s[i]) {
      SeqRoundTrip(s, TokenSlotToJson, GetTokenSlot);
    }
  }

  // AbilityWorldObject
  datatype AbilityWorldObject = AbilityWorldObject(entity: Entity)

  const DefaultAbilityWorldObject: AbilityWorldObject := AbilityWorldObject(DefaultEntity)

  predicate AbilityWorldObjectEncodable(v: AbilityWorldObject)
  {
    hide EntityEncodable;
    EntityEncodable(v.entity)
  }

  function AbilityWorldObjectToJson(v: AbilityWorldObject): Outcome<Json>
  {
    hide EntityToJson;
    var entityJson :- EntityToJson(v.entity);
    var j1 := Put(Null, "entity", entityJson);
    Ok(j1)
  }

  function AbilityWorldObjectFromJson(j: Json, prior: AbilityWorldObject): Outcome<AbilityWorldObject>
  {
    hide EntityFromJson;
    var entityJson :- At(j, "entity");
    var entity :- EntityFromJson(entityJson, prior.entity);
    Ok(AbilityWorldObject(entity))
  }

  function GetAbilityWorldObject(j: Json): Outcome<AbilityWorldObject>
  {
    AbilityWorldObjectFromJson(j, DefaultAbilityWorldObject)
  }

  /** Each key of the encoded object holds its field, as written. */
  lemma AbilityWorldObjectFields(v: AbilityWorldObject)
    requires AbilityWorldObjectToJson(v).Ok?
    ensures hide *; var j := AbilityWorldObjectToJson(v).value;
      && j.Obj?
      && EntityToJson(v.entity).Ok?
      && At(j, "entity") == Ok(EntityToJson(v.entity).value)
  {
    hide EntityToJson, Put, PutOptional, Get, At, OptionalAt, SeqToJson, IntegerOf;
  }

  lemma AbilityWorldObjectRoundTrip(v: AbilityWorldObject)
    ensures hide *; AbilityWorldObjectToJson(v).Ok? <==> AbilityWorldObjectEncodable(v)
    ensures hide *; AbilityWorldObjectToJson(v).Ok? ==> AbilityWorldObjectToJson(v).value.Obj?
    ensures hide *; AbilityWorldObjectEncodable(v) ==> GetAbilityWorldObject(AbilityWorldObjectToJson(v).value) == Ok(v)
  {
    hide EntityToJson, EntityFromJson, EntityEncodable, Put, PutOptional, Get, At, OptionalAt, EncodeEach, DecodeEach, SeqFromJson, FixedFromJson, IntegerOf, U8FromJson, U16FromJson, U32FromJson, U64FromJson, EnumFromJson, FloatFromJson, BoolFromJson, StringFromJson;
    EntityRoundTrip(v.entity);
    if AbilityWorldObjectToJson(v).Ok? && AbilityWorldObjectEncodable(v) {
      AbilityWorldObjectFields(v);
      var j := AbilityWorldObjectToJson(v).value;
      hide AbilityWorldObjectToJson;
      assert GetAbilityWorldObject(j) == Ok(v);
    }
  }

  /** A vector of `AbilityWorldObject` reads back as written. */
  lemma AbilityWorldObjectSeqRoundTrip(s: seq<AbilityWorldObject>)
    ensures hide *; SeqToJson(s, AbilityWorldObjectToJson).Ok? <==> forall i :: 0 <= i < |s| ==> AbilityWorldObjectEncodable(s[i])
    ensures hide *; (forall i :: 0 <= i < |s| ==> AbilityWorldObjectEncodable(s[i])) ==> SeqFromJson(SeqToJson(s, AbilityWorldObjectToJson).value, GetAbilityWorldObject) == Ok(s)
  {
    hide AbilityWorldObjectToJson, AbilityWorldObjectFromJson, AbilityWorldObjectEncodable;
    forall i | 0 <= i < |s|
      ensures AbilityWorldObjectToJson(s[i]).Ok? <==> AbilityWorldObjectEncodable(s[i])
      ensures AbilityWorldObjectEncodable(s[i]) ==> GetAbilityWorldObject(AbilityWorldObjectToJson(s[i]).value) == Ok(s[i])
    {
      AbilityWorldObjectRoundTrip(s[i]);
    }
    EncodeEachOk(s, AbilityWorldObjectToJson);
    if forall i :: 0 <= i < |s| ==> AbilityWorldObjectEncodable(s[i]) {
      SeqRoundTrip(s, AbilityWorldObjectToJson, GetAbilityWorldObject);
    }
  }

  // Squad
  datatype Squad = Squad(entity: Entity, cardId: CardId, resSquadId: SquadId, boundPower: real, squadSize: u8, figures: seq<EntityId>)

  const DefaultSquad: Squad := Squad(DefaultEntity, 0, 0, 0.0, 0, [])

  predicate SquadEncodable(v: Squad)
  {
    hide EntityEncodable;
    EntityEncodable(v.entity)
  }

  function SquadToJson(v: Squad): Outcome<Json>
  {
    hide EntityToJson;
    var entityJson :- EntityToJson(v.entity);
    var j1 := Put(Null, "entity", entityJson);
    var j2 := Put(j1, "card_id", Int(v.cardId));
    var j3 := Put(j2, "res_squad_id", Int(v.resSquadId));
    var j4 := Put(j3, "bound_power", Float(v.boundPower));
    var j5 := Put(j4, "squad_size", Int(v.squadSize));
    var figuresJson :- SeqToJson(v.figures, U32ToJson);
    var j6 := Put(j5, "figures", figuresJson);
    Ok(j6)
  }

  function SquadFromJson(j: Json, prior: Squad): Outcome<Squad>
  {
    hide EntityFromJson;
    var entityJson :- At(j, "entity");
    var entity :- EntityFromJson(entityJson, prior.entity);
    var cardIdJson :- At(j, "card_id");
    var cardId :- U32FromJson(cardIdJson);
    var resSquadIdJson :- At(j, "res_squad_id");
    var resSquadId :- U32FromJson(resSquadIdJson);
    var boundPowerJson :- At(j, "bound_power");
    var boundPower :- FloatFromJson(boundPowerJson);
    var squadSizeJson :- At(j, "squad_size");
    var squadSize :- U8FromJson(squadSizeJson);
    var figuresJson :- At(j, "figures");
    var figures :- SeqFromJson(figuresJson, U32FromJson);
    Ok(Squad(entity, cardId, resSquadId, boundPower, squadSize, figures))
  }

  function GetSquad(j: Json): Outcome<Squad>
  {
    SquadFromJson(j, DefaultSquad)
  }

  /** Each key of the encoded object holds its field, as written. */
  lemma SquadFields(v: Squad)
    requires SquadToJson(v).Ok?
    ensures hide *; var j := SquadToJson(v).value;
      && j.Obj?
      && EntityToJson(v.entity).Ok?
      && At(j, "entity") == Ok(EntityToJson(v.entity).value)
      && At(j, "card_id") == Ok(Int(v.cardId))
      && At(j, "res_squad_id") == Ok(Int(v.resSquadId))
      && At(j, "bound_power") == Ok(Float(v.boundPower))
      && At(j, "squad_size") == Ok(Int(v.squadSize))
      && SeqToJson(v.figures, U32ToJson).Ok?
      && At(j, "figures") == Ok(SeqToJson(v.figures, U32ToJson).value)
  {
    hide EntityToJson, Put, PutOptional, Get, At, OptionalAt, SeqToJson, IntegerOf;
  }

  lemma SquadRoundTrip(v: Squad)
    ensures hide *; SquadToJson(v).Ok? <==> SquadEncodable(v)
    ensures hide *; SquadToJson(v).Ok? ==> SquadToJson(v).value.Obj?
    ensures hide *; SquadEncodable(v) ==> GetSquad(SquadToJson(v).value) == Ok(v)
  {
    hide EntityToJson, EntityFromJson, EntityEncodable, Put, PutOptional, Get, At, OptionalAt, EncodeEach, DecodeEach, SeqFromJson, FixedFromJson, IntegerOf, U8FromJson, U16FromJson, U32FromJson, U64FromJson, EnumFromJson, FloatFromJson, BoolFromJson, StringFromJson;
    EntityRoundTrip(v.entity);
    SeqRoundTrip(v.figures, U32ToJson, U32FromJson);
    if SquadToJson(v).Ok? && SquadEncodable(v) {
      SquadFields(v);
      var j := SquadToJson(v).value;
      hide SquadToJson;
      assert U32FromJson(Int(v.cardId)) == Ok(v.cardId);
      assert U32FromJson(Int(v.resSquadId)) == Ok(v.resSquadId);
      assert FloatFromJson(Float(v.boundPower)) == Ok(v.boundPower);
      assert U8FromJson(Int(v.squadSize)) == Ok(v.squadSize);
      assert GetSquad(j) == Ok(v);
    }
  }

  /** A vector of `Squad` reads back as written. */
  lemma SquadSeqRoundTrip(s: seq<Squad>)
    ensures hide *; SeqToJson(s, SquadToJson).Ok? <==> forall i :: 0 <= i < |s| ==> SquadEncodable(s[i])
    ensures hide *; (forall i :: 0 <= i < |s| ==> SquadEncodable(s[i])) ==> SeqFromJson(SeqToJson(s, SquadToJson).value, GetSquad) == Ok(s)
  {
    hide SquadToJson, SquadFromJson, SquadEncodable;
    forall i | 0 <= i < |s|
      ensures SquadToJson(s[i]).Ok? <==> SquadEncodable(s[i])
      ensures SquadEncodable(s[i]) ==> GetSquad(SquadToJson(s[i]).value) == Ok(s[i])
    {
      SquadRoundTrip(s[i]);
    }
    EncodeEachOk(s, SquadToJson);
    if forall i :: 0 <= i < |s| ==> SquadEncodable(s[i]) {
      SeqRoundTrip(s, SquadToJson, GetSquad);
    }
  }

  // Figure
  datatype Figure = Figure(entity: Entity, squadId: EntityId, currentSpeed: real, rotationSpeed: real, unitSize: u8, moveMode: u8)

  const DefaultFigure: Figure := Figure(DefaultEntity, 0, 0.0, 0.0, 0, 0)

  predicate FigureEncodable(v: Figure)
  {
    hide EntityEncodable;
    EntityEncodable(v.entity)
  }

  function FigureToJson(v: Figure): Outcome<Json>
  {
    hide EntityToJson;
    var entityJson :- EntityToJson(v.entity);
    var j1 := Put(Null, "entity", entityJson);
    var j2 := Put(j1, "squad_id", Int(v.squadId));
    var j3 := Put(j2, "current_speed", Float(v.currentSpeed));
    var j4 := Put(j3, "rotation_speed", Float(v.rotationSpeed));
    var j5 := Put(j4, "unit_size", Int(v.unitSize));
    var j6 := Put(j5, "move_mode", Int(v.moveMode));
    Ok(j6)
  }

  function FigureFromJson(j: Json, prior: Figure): Outcome<Figure>
  {
    hide EntityFromJson;
    var entityJson :- At(j, "entity");
    var entity :- EntityFromJson(entityJson, prior.entity);
    var squadIdJson :- At(j, "squad_id");
    var squadId :- U32FromJson(squadIdJson);
    var currentSpeedJson :- At(j, "current_speed");
    var currentSpeed :- FloatFromJson(currentSpeedJson);
    var rotationSpeedJson :- At(j, "rotation_speed");
    var rotationSpeed :- FloatFromJson(rotationSpeedJson);
    var unitSizeJson :- At(j, "unit_size");
    var unitSize :- U8FromJson(unitSizeJson);
    var moveModeJson :- At(j, "move_mode");
    var moveMode :- U8FromJson(moveModeJson);
    Ok(Figure(entity, squadId, currentSpeed, rotationSpeed, unitSize, moveMode))
  }

  function GetFigure(j: Json): Outcome<Figure>
  {
    FigureFromJson(j, DefaultFigure)
  }

  /** Each key of the encoded object holds its field, as written. */
  lemma FigureFields(v: Figure)
    requires FigureToJson(v).Ok?
    ensures hide *; var j := FigureToJson(v).value;
      && j.Obj?
      && EntityToJson(v.entity).Ok?
      && At(j, "entity") == Ok(EntityToJson(v.entity).value)
      && At(j, "squad_id") == Ok(Int(v.squadId))
      && At(j, "current_speed") == Ok(Float(v.currentSpeed))
      && At(j, "rotation_speed") == Ok(Float(v.rotationSpeed))
      && At(j, "unit_size") == Ok(Int(v.unitSize))
      && At(j, "move_mode") == Ok(Int(v.moveMode))
  {
    hide EntityToJson, Put, PutOptional, Get, At, OptionalAt, SeqToJson, IntegerOf;
  }

  lemma FigureRoundTrip(v: Figure)
    ensures hide *; FigureToJson(v).Ok? <==> FigureEncodable(v)
    ensures hide *; FigureToJson(v).Ok? ==> FigureToJson(v).value.Obj?
    ensures hide *; FigureEncodable(v) ==> GetFigure(FigureToJson(v).value) == Ok(v)
  {
    hide EntityToJson, EntityFromJson, EntityEncodable, Put, PutOptional, Get, At, OptionalAt, EncodeEach, DecodeEach, SeqFromJson, FixedFromJson, IntegerOf, U8FromJson, U16FromJson, U32FromJson, U64FromJson, EnumFromJson, FloatFromJson, BoolFromJson, StringFromJson;
    EntityRoundTrip(v.entity);
    if FigureToJson(v).Ok? && FigureEncodable(v) {
      FigureFields(v);
      var j := FigureToJson(v).value;
      hide FigureToJson;
      assert U32FromJson(Int(v.squadId)) == Ok(v.squadId);
      assert FloatFromJson(Float(v.currentSpeed)) == Ok(v.currentSpeed);
      assert FloatFromJson(Float(v.rotationSpeed)) == Ok(v.rotationSpeed);
      assert U8FromJson(Int(v.unitSize)) == Ok(v.unitSize);
      assert U8FromJson(Int(v.moveMode)) == Ok(v.moveMode);
      assert GetFigure(j) == Ok(v);
    }
  }

  /** A vector of `Figure` reads back as written. */
  lemma FigureSeqRoundTrip(s: seq<Figure>)
    ensures hide *; SeqToJson(s, FigureToJson).Ok? <==> forall i :: 0 <= i < |s| ==> FigureEncodable(s[i])
    ensures hide *; (forall i :: 0 <= i < |s| ==> FigureEncodable(s[i])) ==> SeqFromJson(SeqToJson(s, FigureToJson).value, GetFigure) == Ok(s)
  {
    hide FigureToJson, FigureFromJson, FigureEncodable;
    forall i | 0 <= i < |s|
      ensures FigureToJson(s[i]).Ok? <==> FigureEncodable(s[i])
      ensures FigureEncodable(s[i]) ==> GetFigure(FigureToJson(s[i]).value) == Ok(s[i])
    {
      FigureRoundTrip(s[i]);
    }
    EncodeEachOk(s, FigureToJson);
    if forall i :: 0 <= i < |s| ==> FigureEncodable(s[i]) {
      SeqRoundTrip(s, FigureToJson, GetFigure);
    }
  }

  // Building
  datatype Building = Building(entity: Entity, buildingId: BuildingId, cardId: CardId, powerCost: real)

  const DefaultBuilding: Building := Building(DefaultEntity, 0, 0, 0.0)

  predicate BuildingEncodable(v: Building)
  {
    hide EntityEncodable;
    EntityEncodable(v.entity)
  }

  function BuildingToJson(v: Building): Outcome<Json>
  {
    hide EntityToJson;
    var entityJson :- EntityToJson(v.entity);
    var j1 := Put(Null, "entity", entityJson);
    var j2 := Put(j1, "building_id", Int(v.buildingId));
    var j3 := Put(j2, "card_id", Int(v.cardId));
    var j4 := Put(j3, "power_cost", Float(v.powerCost));
    Ok(j4)
  }

  function BuildingFromJson(j: Json, prior: Building): Outcome<Building>
  {
    hide EntityFromJson;
    var entityJson :- At(j, "entity");
    var entity :- EntityFromJson(entityJson, prior.entity);
    var buildingIdJson :- At(j, "building_id");
    var buildingId :- U32FromJson(buildingIdJson);
    var cardIdJson :- At(j, "card_id");
    var cardId :- U32FromJson(cardIdJson);
    var powerCostJson :- At(j, "power_cost");
    var powerCost :- FloatFromJson(powerCostJson);
    Ok(Building(entity, buildingId, cardId, powerCost))
  }

  function GetBuilding(j: Json): Outcome<Building>
  {
    BuildingFromJson(j, DefaultBuilding)
  }

  /** Each key of the encoded object holds its field, as written. */
  lemma BuildingFields(v: Building)
    requires BuildingToJson(v).Ok?
    ensures hide *; var j := BuildingToJson(v).value;
      && j.Obj?
      && EntityToJson(v.entity).Ok?
      && At(j, "entity") == Ok(EntityToJson(v.entity).value)
      && At(j, "building_id") == Ok(Int(v.buildingId))
      && At(j, "card_id") == Ok(Int(v.cardId))
      && At(j, "power_cost") == Ok(Float(v.powerCost))
  {
    hide EntityToJson, Put, PutOptional, Get, At, OptionalAt, SeqToJson, IntegerOf;
  }

  lemma BuildingRoundTrip(v: Building)
    ensures hide *; BuildingToJson(v).Ok? <==> BuildingEncodable(v)
    ensures hide *; BuildingToJson(v).Ok? ==> BuildingToJson(v).value.Obj?
    ensures hide *; BuildingEncodable(v) ==> GetBuilding(BuildingToJson(v).value) == Ok(v)
  {
    hide EntityToJson, EntityFromJson, EntityEncodable, Put, PutOptional, Get, At, OptionalAt, EncodeEach, DecodeEach, SeqFromJson, FixedFromJson, IntegerOf, U8FromJson, U16FromJson, U32FromJson, U64FromJson, EnumFromJson, FloatFromJson, BoolFromJson, StringFromJson;
    EntityRoundTrip(v.entity);
    if BuildingToJson(v).Ok? && BuildingEncodable(v) {
      BuildingFields(v);
      var j := BuildingToJson(v).value;
      hide BuildingToJson;
      assert U32FromJson(Int(v.buildingId)) == Ok(v.buildingId);
      assert U32FromJson(Int(v.cardId)) == Ok(v.cardId);
      assert FloatFromJson(Float(v.powerCost)) == Ok(v.powerCost);
      assert GetBuilding(j) == Ok(v);
    }
  }

  /** A vector of `Building` reads back as written. */
  lemma BuildingSeqRoundTrip(s: seq<Building>)
    ensures hide *; SeqToJson(s, BuildingToJson).Ok? <==> forall i :: 0 <= i < |s| ==> BuildingEncodable(s[i])
    ensures hide *; (forall i :: 0 <= i < |s| ==> BuildingEncodable(s[i])) ==> SeqFromJson(SeqToJson(s, BuildingToJson).value, GetBuilding) == Ok(s)
  {
    hide BuildingToJson, BuildingFromJson, BuildingEncodable;
    forall i | 0 <= i < |s|
      ensures BuildingToJson(s[i]).Ok? <==> BuildingEncodable(s[i])
      ensures BuildingEncodable(s[i]) ==> GetBuilding(BuildingToJson(s[i]).value) == Ok(s[i])
    {
      BuildingRoundTrip(s[i]);
    }
    EncodeEachOk(s, BuildingToJson);
    if forall i :: 0 <= i < |s| ==> BuildingEncodable(s[i]) {
      SeqRoundTrip(s, BuildingToJson, GetBuilding);
    }
  }

  // BarrierSet
  datatype BarrierSet = BarrierSet(entity: Entity)

  const DefaultBarrierSet: BarrierSet := BarrierSet(DefaultEntity)

  predicate BarrierSetEncodable(v: BarrierSet)
  {
    hide EntityEncodable;
    EntityEncodable(v.entity)
  }

  function BarrierSetToJson(v: BarrierSet): Outcome<Json>
  {
    hide EntityToJson;
    var entityJson :- EntityToJson(v.entity);
    var j1 := Put(Null, "entity", entityJson);
    Ok(j1)
  }

  function BarrierSetFromJson(j: Json, prior: BarrierSet): Outcome<BarrierSet>
  {
    hide EntityFromJson;
    var entityJson :- At(j, "entity");
    var entity :- EntityFromJson(entityJson, prior.entity);
    Ok(BarrierSet(entity))
  }

  function GetBarrierSet(j: Json): Outcome<BarrierSet>
  {
    BarrierSetFromJson(j, DefaultBarrierSet)
  }

  /** Each key of the encoded object holds its field, as written. */
  lemma BarrierSetFields(v: BarrierSet)
    requires BarrierSetToJson(v).Ok?
    ensures hide *; var j := BarrierSetToJson(v).value;
      && j.Obj?
      && EntityToJson(v.entity).Ok?
      && At(j, "entity") == Ok(EntityToJson(v.entity).value)
  {
    hide EntityToJson, Put, PutOptional, Get, At, OptionalAt, SeqToJson, IntegerOf;
  }

  lemma BarrierSetRoundTrip(v: BarrierSet)
    ensures hide *; BarrierSetToJson(v).Ok? <==> BarrierSetEncodable(v)
    ensures hide *; BarrierSetToJson(v).Ok? ==> BarrierSetToJson(v).value.Obj?
    ensures hide *; BarrierSetEncodable(v) ==> GetBarrierSet(BarrierSetToJson(v).value) == Ok(v)
  {
    hide EntityToJson, EntityFromJson, EntityEncodable, Put, PutOptional, Get, At, OptionalAt, EncodeEach, DecodeEach, SeqFromJson, FixedFromJson, IntegerOf, U8FromJson, U16FromJson, U32FromJson, U64FromJson, EnumFromJson, FloatFromJson, BoolFromJson, StringFromJson;
    EntityRoundTrip(v.entity);
    if BarrierSetToJson(v).Ok? && BarrierSetEncodable(v) {
      BarrierSetFields(v);
      var j := BarrierSetToJson(v).value;
      hide BarrierSetToJson;
      assert GetBarrierSet(j) == Ok(v);
    }
  }

  /** A vector of `BarrierSet` reads back as written. */
  lemma BarrierSetSeqRoundTrip(s: seq<BarrierSet>)
    ensures hide *; SeqToJson(s, BarrierSetToJson).Ok? <==> forall i :: 0 <= i < |s| ==> BarrierSetEncodable(s[i])
    ensures hide *; (forall i :: 0 <= i < |s| ==> BarrierSetEncodable(s[i])) ==> SeqFromJson(SeqToJson(s, BarrierSetToJson).value, GetBarrierSet) == Ok(s)
  {
    hide BarrierSetToJson, BarrierSetFromJson, BarrierSetEncodable;
    forall i | 0 <= i < |s|
      ensures BarrierSetToJson(s[i]).Ok? <==> BarrierSetEncodable(s[i])
      ensures BarrierSetEncodable(s[i]) ==> GetBarrierSet(BarrierSetToJson(s[i]).value) == Ok(s[i])
    {
      BarrierSetRoundTrip(s[i]);
    }
    EncodeEachOk(s, BarrierSetToJson);
    if forall i :: 0 <= i < |s| ==> BarrierSetEncodable(s[i]) {
      SeqRoundTrip(s, BarrierSetToJson, GetBarrierSet);
    }
  }

  // BarrierModule
  datatype BarrierModule = BarrierModule(entity: Entity, team: u8, barrierSet: EntityId, state: u32, slots: u8, freeSlots: u8, walkable: bool)

  const DefaultBarrierModule: BarrierModule := BarrierModule(DefaultEntity, 0, 0, 0, 0, 0, false)

  predicate BarrierModuleEncodable(v: BarrierModule)
  {
    hide EntityEncodable;
    EntityEncodable(v.entity)
  }

  function BarrierModuleToJson(v: BarrierModule): Outcome<Json>
  {
    hide EntityToJson;
    var entityJson :- EntityToJson(v.entity);
    var j1 := Put(Null, "entity", entityJson);
    var j2 := Put(j1, "team", Int(v.team));
    var j3 := Put(j2, "set", Int(v.barrierSet));
    var j4 := Put(j3, "state", Int(v.state));
    var j5 := Put(j4, "slots", Int(v.slots));
    var j6 := Put(j5, "free_slots", Int(v.freeSlots));
    var j7 := Put(j6, "walkable", Bool(v.walkable));
    Ok(j7)
  }

  function BarrierModuleFromJson(j: Json, prior: BarrierModule): Outcome<BarrierModule>
  {
    hide EntityFromJson;
    var entityJson :- At(j, "entity");
    var entity :- EntityFromJson(entityJson, prior.entity);
    var teamJson :- At(j, "team");
    var team :- U8FromJson(teamJson);
    var barrierSetJson :- At(j, "set");
    var barrierSet :- U32FromJson(barrierSetJson);
    var stateJson :- At(j, "state");
    var state :- U32FromJson(stateJson);
    var slotsJson :- At(j, "slots");
    var slots :- U8FromJson(slotsJson);
    var freeSlotsJson :- At(j, "free_slots");
    var freeSlots :- U8FromJson(freeSlotsJson);
    var walkableJson :- At(j, "walkable");
    var walkable :- BoolFromJson(walkableJson);
    Ok(BarrierModule(entity, team, barrierSet, state, slots, freeSlots, walkable))
  }

  function GetBarrierModule(j: Json): Outcome<BarrierModule>
  {
    BarrierModuleFromJson(j, DefaultBarrierModule)
  }

  /** Each key of the encoded object holds its field, as written. */
  lemma BarrierModuleFields(v: BarrierModule)
    requires BarrierModuleToJson(v).Ok?
    ensures hide *; var j := BarrierModuleToJson(v).value;
      && j.Obj?
      && EntityToJson(v.entity).Ok?
      && At(j, "entity") == Ok(EntityToJson(v.entity).value)
      && At(j, "team") == Ok(Int(v.team))
      && At(j, "set") == Ok(Int(v.barrierSet))
      && At(j, "state") == Ok(Int(v.state))
      && At(j, "slots") == Ok(Int(v.slots))
      && At(j, "free_slots") == Ok(Int(v.freeSlots))
      && At(j, "walkable") == Ok(Bool(v.walkable))
  {
    hide EntityToJson, Put, PutOptional, Get, At, OptionalAt, SeqToJson, IntegerOf;
  }

  lemma BarrierModuleRoundTrip(v: BarrierModule)
    ensures hide *; BarrierModuleToJson(v).Ok? <==> BarrierModuleEncodable(v)
    ensures hide *; BarrierModuleToJson(v).Ok? ==> BarrierModuleToJson(v).value.Obj?
    ensures hide *; BarrierModuleEncodable(v) ==> GetBarrierModule(BarrierModuleToJson(v).value) == Ok(v)
  {
    hide EntityToJson, EntityFromJson, EntityEncodable, Put, PutOptional, Get, At, OptionalAt, EncodeEach, DecodeEach, SeqFromJson, FixedFromJson, IntegerOf, U8FromJson, U16FromJson, U32FromJson, U64FromJson, EnumFromJson, FloatFromJson, BoolFromJson, StringFromJson;
    EntityRoundTrip(v.entity);
    if BarrierModuleToJson(v).Ok? && BarrierModuleEncodable(v) {
      BarrierModuleFields(v);
      var j := BarrierModuleToJson(v).value;
      hide BarrierModuleToJson;
      assert U8FromJson(Int(v.team)) == Ok(v.team);
      assert U32FromJson(Int(v.barrierSet)) == Ok(v.barrierSet);
      assert U32FromJson(Int(v.state)) == Ok(v.state);
      assert U8FromJson(Int(v.slots)) == Ok(v.slots);
      assert U8FromJson(Int(v.freeSlots)) == Ok(v.freeSlots);
      assert BoolFromJson(Bool(v.walkable)) == Ok(v.walkable);
      assert GetBarrierModule(j) == Ok(v);
    }
  }

  /** A vector of `BarrierModule` reads back as written. */
  lemma BarrierModuleSeqRoundTrip(s: seq<BarrierModule>)
    ensures hide *; SeqToJson(s, BarrierModuleToJson).Ok? <==> forall i :: 0 <= i < |s| ==> BarrierModuleEncodable(s[i])
    ensures hide *; (forall i :: 0 <= i < |s| ==> BarrierModuleEncodable(s[i])) ==> SeqFromJson(SeqToJson(s, BarrierModuleToJson).value, GetBarrierModule) == Ok(s)
  {
    hide BarrierModuleToJson, BarrierModuleFromJson, BarrierModuleEncodable;
    forall i | 0 <= i < |s|
      ensures BarrierModuleToJson(s[i]).Ok? <==> BarrierModuleEncodable(s[i])
      ensures BarrierModuleEncodable(s[i]) ==> GetBarrierModule(BarrierModuleToJson(s[i]).value) == Ok(s[i])
    {
      BarrierModuleRoundTrip(s[i]);
    }
    EncodeEachOk(s, BarrierModuleToJson);
    if forall i :: 0 <= i < |s| ==> BarrierModuleEncodable(s[i]) {
      SeqRoundTrip(s, BarrierModuleToJson, GetBarrierModule);
    }
  }

  // CommandBuildHouse
  datatype CommandBuildHouse = CommandBuildHouse(cardPosition: u8, xy: Position2D, angle: real)

  const DefaultCommandBuildHouse: CommandBuildHouse := CommandBuildHouse(0, DefaultPosition2D, 0.0)

  function CommandBuildHouseToJson(v: CommandBuildHouse): Outcome<Json>
  {
    hide Position2DToJson;
    var j1 := Put(Null, "card_position", Int(v.cardPosition));
    var xyJson :- Position2DToJson(v.xy);
    var j2 := Put(j1, "xy", xyJson);
    var j3 := Put(j2, "angle", Float(v.angle));
    Ok(j3)
  }

  function CommandBuildHouseFromJson(j: Json, prior: CommandBuildHouse): Outcome<CommandBuildHouse>
  {
    hide Position2DFromJson;
    var cardPositionJson :- At(j, "card_position");
    var cardPosition :- U8FromJson(cardPositionJson);
    var xyJson :- At(j, "xy");
    var xy :- Position2DFromJson(xyJson, prior.xy);
    var angleJson :- At(j, "angle");
    var angle :- FloatFromJson(angleJson);
    Ok(CommandBuildHouse(cardPosition, xy, angle))
  }

  function GetCommandBuildHouse(j: Json): Outcome<CommandBuildHouse>
  {
    CommandBuildHouseFromJson(j, DefaultCommandBuildHouse)
  }

  /** Each key of the encoded object holds its field, as written. */
  lemma CommandBuildHouseFields(v: CommandBuildHouse)
    requires CommandBuildHouseToJson(v).Ok?
    ensures hide *; var j := CommandBuildHouseToJson(v).value;
      && j.Obj?
      && At(j, "card_position") == Ok(Int(v.cardPosition))
      && Position2DToJson(v.xy).Ok?
      && At(j, "xy") == Ok(Position2DToJson(v.xy).value)
      && At(j, "angle") == Ok(Float(v.angle))
  {
    hide Position2DToJson, Put, PutOptional, Get, At, OptionalAt, SeqToJson, IntegerOf;
  }

  lemma CommandBuildHouseRoundTrip(v: CommandBuildHouse)
    ensures hide *; CommandBuildHouseToJson(v).Ok? && CommandBuildHouseToJson(v).value.Obj?
    ensures hide *; GetCommandBuildHouse(CommandBuildHouseToJson(v).value) == Ok(v)
  {
    hide Position2DToJson, Position2DFromJson, Put, PutOptional, Get, At, OptionalAt, EncodeEach, DecodeEach, SeqFromJson, FixedFromJson, IntegerOf, U8FromJson, U16FromJson, U32FromJson, U64FromJson, EnumFromJson, FloatFromJson, BoolFromJson, StringFromJson;
    Position2DRoundTrip(v.xy);
    if CommandBuildHouseToJson(v).Ok? {
      CommandBuildHouseFields(v);
      var j := CommandBuildHouseToJson(v).value;
      hide CommandBuildHouseToJson;
      assert U8FromJson(Int(v.cardPosition)) == Ok(v.cardPosition);
      assert FloatFromJson(Float(v.angle)) == Ok(v.angle);
      assert GetCommandBuildHouse(j) == Ok(v);
    }
  }

  // CommandCastSpellGod
  datatype CommandCastSpellGod = CommandCastSpellGod(cardPosition: u8, target: SingleTarget)

  const DefaultCommandCastSpellGod: CommandCastSpellGod := CommandCastSpellGod(0, SingleTarget.Invalid)

  predicate CommandCastSpellGodEncodable(v: CommandCastSpellGod)
  {
    hide SingleTargetEncodable;
    SingleTargetEncodable(v.target)
  }

  function CommandCastSpellGodToJson(v: CommandCastSpellGod): Outcome<Json>
  {
    hide SingleTargetToJson;
    var j1 := Put(Null, "card_position", Int(v.cardPosition));
    var targetJson :- SingleTargetToJson(v.target);
    var j2 := Put(j1, "target", targetJson);
    Ok(j2)
  }

  function CommandCastSpellGodFromJson(j: Json, prior: CommandCastSpellGod): Outcome<CommandCastSpellGod>
  {
    hide SingleTargetFromJson;
    var cardPositionJson :- At(j, "card_position");
    var cardPosition :- U8FromJson(cardPositionJson);
    var targetJson :- At(j, "target");
    var target :- SingleTargetFromJson(targetJson, prior.target);
    Ok(CommandCastSpellGod(cardPosition, target))
  }

  function GetCommandCastSpellGod(j: Json): Outcome<CommandCastSpellGod>
  {
    CommandCastSpellGodFromJson(j, DefaultCommandCastSpellGod)
  }

  /** Each key of the encoded object holds its field, as written. */
  lemma CommandCastSpellGodFields(v: CommandCastSpellGod)
    requires CommandCastSpellGodToJson(v).Ok?
    ensures hide *; var j := CommandCastSpellGodToJson(v).value;
      && j.Obj?
      && At(j, "card_position") == Ok(Int(v.cardPosition))
      && SingleTargetToJson(v.target).Ok?
      && At(j, "target") == Ok(SingleTargetToJson(v.target).value)
  {
    hide SingleTargetToJson, Put, PutOptional, Get, At, OptionalAt, SeqToJson, IntegerOf;
  }

  lemma CommandCastSpellGodRoundTrip(v: CommandCastSpellGod)
    ensures hide *; CommandCastSpellGodToJson(v).Ok? <==> CommandCastSpellGodEncodable(v)
    ensures hide *; CommandCastSpellGodToJson(v).Ok? ==> CommandCastSpellGodToJson(v).value.Obj?
    ensures hide *; CommandCastSpellGodEncodable(v) ==> GetCommandCastSpellGod(CommandCastSpellGodToJson(v).value) == Ok(v)
  {
    hide SingleTargetToJson, SingleTargetFromJson, SingleTargetEncodable, Put, PutOptional, Get, At, OptionalAt, EncodeEach, DecodeEach, SeqFromJson, FixedFromJson, IntegerOf, U8FromJson, U16FromJson, U32FromJson, U64FromJson, EnumFromJson, FloatFromJson, BoolFromJson, StringFromJson;
    SingleTargetRoundTrip(v.target, SingleTarget.Invalid);
    if CommandCastSpellGodToJson(v).Ok? && CommandCastSpellGodEncodable(v) {
      CommandCastSpellGodFields(v);
      var j := CommandCastSpellGodToJson(v).value;
      hide CommandCastSpellGodToJson;
      assert U8FromJson(Int(v.cardPosition)) == Ok(v.cardPosition);
      assert GetCommandCastSpellGod(j) == Ok(v);
    }
  }

  // CommandCastSpellGodMulti
  datatype CommandCastSpellGodMulti = CommandCastSpellGodMulti(cardPosition: u8, xy1: Position2D, xy2: Position2D)

  const DefaultCommandCastSpellGodMulti: CommandCastSpellGodMulti := CommandCastSpellGodMulti(0, DefaultPosition2D, DefaultPosition2D)

  function CommandCastSpellGodMultiToJson(v: CommandCastSpellGodMulti): Outcome<Json>
  {
    hide Position2DToJson;
    var j1 := Put(Null, "card_position", Int(v.cardPosition));
    var xy1Json :- Position2DToJson(v.xy1);
    var j2 := Put(j1, "xy1", xy1Json);
    var xy2Json :- Position2DToJson(v.xy2);
    var j3 := Put(j2, "xy2", xy2Json);
    Ok(j3)
  }

  function CommandCastSpellGodMultiFromJson(j: Json, prior: CommandCastSpellGodMulti): Outcome<CommandCastSpellGodMulti>
  {
    hide Position2DFromJson;
    var cardPositionJson :- At(j, "card_position");
    var cardPosition :- U8FromJson(cardPositionJson);
    var xy1Json :- At(j, "xy1");
    var xy1 :- Position2DFromJson(xy1Json, prior.xy1);
    var xy2Json :- At(j, "xy2");
    var xy2 :- Position2DFromJson(xy2Json, prior.xy2);
    Ok(CommandCastSpellGodMulti(cardPosition, xy1, xy2))
  }

  function GetCommandCastSpellGodMulti(j: Json): Outcome<CommandCastSpellGodMulti>
  {
    CommandCastSpellGodMultiFromJson(j, DefaultCommandCastSpellGodMulti)
  }

  /** Each key of the encoded object holds its field, as written. */
  lemma CommandCastSpellGodMultiFields(v: CommandCastSpellGodMulti)
    requires CommandCastSpellGodMultiToJson(v).Ok?
    ensures hide *; var j := CommandCastSpellGodMultiToJson(v).value;
      && j.Obj?
      && At(j, "card_position") == Ok(Int(v.cardPosition))
      && Position2DToJson(v.xy1).Ok?
      && At(j, "xy1") == Ok(Position2DToJson(v.xy1).value)
      && Position2DToJson(v.xy2).Ok?
      && At(j, "xy2") == Ok(Position2DToJson(v.xy2).value)
  {
    hide Position2DToJson, Put, PutOptional, Get, At, OptionalAt, SeqToJson, IntegerOf;
  }

  lemma CommandCastSpellGodMultiRoundTrip(v: CommandCastSpellGodMulti)
    ensures hide *; CommandCastSpellGodMultiToJson(v).Ok? && CommandCastSpellGodMultiToJson(v).value.Obj?
    ensures hide *; GetCommandCastSpellGodMulti(CommandCastSpellGodMultiToJson(v).value) == Ok(v)
  {
    hide Position2DToJson, Position2DFromJson, Put, PutOptional, Get, At, OptionalAt, EncodeEach, DecodeEach, SeqFromJson, FixedFromJson, IntegerOf, U8FromJson, U16FromJson, U32FromJson, U64FromJson, EnumFromJson, FloatFromJson, BoolFromJson, StringFromJson;
    Position2DRoundTrip(v.xy1);
    Position2DRoundTrip(v.xy2);
    if CommandCastSpellGodMultiToJson(v).Ok? {
      CommandCastSpellGodMultiFields(v);
      var j := CommandCastSpellGodMultiToJson(v).value;
      hide CommandCastSpellGodMultiToJson;
      assert U8FromJson(Int(v.cardPosition)) == Ok(v.cardPosition);
      assert GetCommandCastSpellGodMulti(j) == Ok(v);
    }
  }

  // CommandProduceSquad
  datatype CommandProduceSquad = CommandProduceSquad(cardPosition: u8, xy: Position2D)

  const DefaultCommandProduceSquad: CommandProduceSquad := CommandProduceSquad(0, DefaultPosition2D)

  function CommandProduceSquadToJson(v: CommandProduceSquad): Outcome<Json>
  {
    hide Position2DToJson;
    var j1 := Put(Null, "card_position", Int(v.cardPosition));
    var xyJson :- Position2DToJson(v.xy);
    var j2 := Put(j1, "xy", xyJson);
    Ok(j2)
  }

  function CommandProduceSquadFromJson(j: Json, prior: CommandProduceSquad): Outcome<CommandProduceSquad>
  {
    hide Position2DFromJson;
    var cardPositionJson :- At(j, "card_position");
    var cardPosition :- U8FromJson(cardPositionJson);
    var xyJson :- At(j, "xy");
    var xy :- Position2DFromJson(xyJson, prior.xy);
    Ok(CommandProduceSquad(cardPosition, xy))
  }

  function GetCommandProduceSquad(j: Json): Outcome<CommandProduceSquad>
  {
    CommandProduceSquadFromJson(j, DefaultCommandProduceSquad)
  }

  /** Each key of the encoded object holds its field, as written. */
  lemma CommandProduceSquadFields(v: CommandProduceSquad)
    requires CommandProduceSquadToJson(v).Ok?
    ensures hide *; var j := CommandProduceSquadToJson(v).value;
      && j.Obj?
      && At(j, "card_position") == Ok(Int(v.cardPosition))
      && Position2DToJson(v.xy).Ok?
      && At(j, "xy") == Ok(Position2DToJson(v.xy).value)
  {
    hide Position2DToJson, Put, PutOptional, Get, At, OptionalAt, SeqToJson, IntegerOf;
  }

  lemma CommandProduceSquadRoundTrip(v: CommandProduceSquad)
    ensures hide *; CommandProduceSquadToJson(v).Ok? && CommandProduceSquadToJson(v).value.Obj?
    ensures hide *; GetCommandProduceSquad(CommandProduceSquadToJson(v).value) == Ok(v)
  {
    hide Position2DToJson, Position2DFromJson, Put, PutOptional, Get, At, OptionalAt, EncodeEach, DecodeEach, SeqFromJson, FixedFromJson, IntegerOf, U8FromJson, U16FromJson, U32FromJson, U64FromJson, EnumFromJson, FloatFromJson, BoolFromJson, StringFromJson;
    Position2DRoundTrip(v.xy);
    if CommandProduceSquadToJson(v).Ok? {
      CommandProduceSquadFields(v);
      var j := CommandProduceSquadToJson(v).value;
      hide CommandProduceSquadToJson;
      assert U8FromJson(Int(v.cardPosition)) == Ok(v.cardPosition);
      assert GetCommandProduceSquad(j) == Ok(v);
    }
  }

  // CommandProduceSquadOnBarrier
  datatype CommandProduceSquadOnBarrier = CommandProduceSquadOnBarrier(cardPosition: u8, xy: Position2D, barrierToMount: EntityId)

  const DefaultCommandProduceSquadOnBarrier: CommandProduceSquadOnBarrier := CommandProduceSquadOnBarrier(0, DefaultPosition2D, 0)

  function CommandProduceSquadOnBarrierToJson(v: CommandProduceSquadOnBarrier): Outcome<Json>
  {
    hide Position2DToJson;
    var j1 := Put(Null, "card_position", Int(v.cardPosition));
    var xyJson :- Position2DToJson(v.xy);
    var j2 := Put(j1, "xy", xyJson);
    var j3 := Put(j2, "barrier_to_mount", Int(v.barrierToMount));
    Ok(j3)
  }

  function CommandProduceSquadOnBarrierFromJson(j: Json, prior: CommandProduceSquadOnBarrier): Outcome<CommandProduceSquadOnBarrier>
  {
    hide Position2DFromJson;
    var cardPositionJson :- At(j, "card_position");
    var cardPosition :- U8FromJson(cardPositionJson);
    var xyJson :- At(j, "xy");
    var xy :- Position2DFromJson(xyJson, prior.xy);
    var barrierToMountJson :- At(j, "barrier_to_mount");
    var barrierToMount :- U32FromJson(barrierToMountJson);
    Ok(CommandProduceSquadOnBarrier(cardPosition, xy, barrierToMount))
  }

  function GetCommandProduceSquadOnBarrier(j: Json): Outcome<CommandProduceSquadOnBarrier>
  {
    CommandProduceSquadOnBarrierFromJson(j, DefaultCommandProduceSquadOnBarrier)
  }

  /** Each key of the encoded object holds its field, as written. */
  lemma CommandProduceSquadOnBarrierFields(v: CommandProduceSquadOnBarrier)
    requires CommandProduceSquadOnBarrierToJson(v).Ok?
    ensures hide *; var j := CommandProduceSquadOnBarrierToJson(v).value;
      && j.Obj?
      && At(j, "card_position") == Ok(Int(v.cardPosition))
      && Position2DToJson(v.xy).Ok?
      && At(j, "xy") == Ok(Position2DToJson(v.xy).value)
      && At(j, "barrier_to_mount") == Ok(Int(v.barrierToMount))
  {
    hide Position2DToJson, Put, PutOptional, Get, At, OptionalAt, SeqToJson, IntegerOf;
  }

  lemma CommandProduceSquadOnBarrierRoundTrip(v: CommandProduceSquadOnBarrier)
    ensures hide *; CommandProduceSquadOnBarrierToJson(v).Ok? && CommandProduceSquadOnBarrierToJson(v).value.Obj?
    ensures hide *; GetCommandProduceSquadOnBarrier(CommandProduceSquadOnBarrierToJson(v).value) == Ok(v)
  {
    hide Position2DToJson, Position2DFromJson, Put, PutOptional, Get, At, OptionalAt, EncodeEach, DecodeEach, SeqFromJson, FixedFromJson, IntegerOf, U8FromJson, U16FromJson, U32FromJson, U64FromJson, EnumFromJson, FloatFromJson, BoolFromJson, StringFromJson;
    Position2DRoundTrip(v.xy);
    if CommandProduceSquadOnBarrierToJson(v).Ok? {
      CommandProduceSquadOnBarrierFields(v);
      var j := CommandProduceSquadOnBarrierToJson(v).value;
      hide CommandProduceSquadOnBarrierToJson;
      assert U8FromJson(Int(v.cardPosition)) == Ok(v.cardPosition);
      assert U32FromJson(Int(v.barrierToMount)) == Ok(v.barrierToMount);
      assert GetCommandProduceSquadOnBarrier(j) == Ok(v);
    }
  }

  // CommandCastSpellEntity
  datatype CommandCastSpellEntity = CommandCastSpellEntity(entity: EntityId, spell: SpellId, target: SingleTarget)

  const DefaultCommandCastSpellEntity: CommandCastSpellEntity := CommandCastSpellEntity(0, 0, SingleTarget.Invalid)

  predicate CommandCastSpellEntityEncodable(v: CommandCastSpellEntity)
  {
    hide SingleTargetEncodable;
    SingleTargetEncodable(v.target)
  }

  function CommandCastSpellEntityToJson(v: CommandCastSpellEntity): Outcome<Json>
  {
    hide SingleTargetToJson;
    var j1 := Put(Null, "entity", Int(v.entity));
    var j2 := Put(j1, "spell", Int(v.spell));
    var targetJson :- SingleTargetToJson(v.target);
    var j3 := Put(j2, "target", targetJson);
    Ok(j3)
  }

  function CommandCastSpellEntityFromJson(j: Json, prior: CommandCastSpellEntity): Outcome<CommandCastSpellEntity>
  {
    hide SingleTargetFromJson;
    var entityJson :- At(j, "entity");
    var entity :- U32FromJson(entityJson);
    var spellJson :- At(j, "spell");
    var spell :- U32FromJson(spellJson);
    var targetJson :- At(j, "target");
    var target :- SingleTargetFromJson(targetJson, prior.target);
    Ok(CommandCastSpellEntity(entity, spell, target))
  }

  function GetCommandCastSpellEntity(j: Json): Outcome<CommandCastSpellEntity>
  {
    CommandCastSpellEntityFromJson(j, DefaultCommandCastSpellEntity)
  }

  /** Each key of the encoded object holds its field, as written. */
  lemma CommandCastSpellEntityFields(v: CommandCastSpellEntity)
    requires CommandCastSpellEntityToJson(v).Ok?
    ensures hide *; var j := CommandCastSpellEntityToJson(v).value;
      && j.Obj?
      && At(j, "entity") == Ok(Int(v.entity))
      && At(j, "spell") == Ok(Int(v.spell))
      && SingleTargetToJson(v.target).Ok?
      && At(j, "target") == Ok(SingleTargetToJson(v.target).value)
  {
    hide SingleTargetToJson, Put, PutOptional, Get, At, OptionalAt, SeqToJson, IntegerOf;
  }

  lemma CommandCastSpellEntityRoundTrip(v: CommandCastSpellEntity)
    ensures hide *; CommandCastSpellEntityToJson(v).Ok? <==> CommandCastSpellEntityEncodable(v)
    ensures hide *; CommandCastSpellEntityToJson(v).Ok? ==> CommandCastSpellEntityToJson(v).value.Obj?
    ensures hide *; CommandCastSpellEntityEncodable(v) ==> GetCommandCastSpellEntity(CommandCastSpellEntityToJson(v).value) == Ok(v)
  {
    hide SingleTargetToJson, SingleTargetFromJson, SingleTargetEncodable, Put, PutOptional, Get, At, OptionalAt, EncodeEach, DecodeEach, SeqFromJson, FixedFromJson, IntegerOf, U8FromJson, U16FromJson, U32FromJson, U64FromJson, EnumFromJson, FloatFromJson, BoolFromJson, StringFromJson;
    SingleTargetRoundTrip(v.target, SingleTarget.Invalid);
    if CommandCastSpellEntityToJson(v).Ok? && CommandCastSpellEntityEncodable(v) {
      CommandCastSpellEntityFields(v);
      var j := CommandCastSpellEntityToJson(v).value;
      hide CommandCastSpellEntityToJson;
      assert U32FromJson(Int(v.entity)) == Ok(v.entity);
      assert U32FromJson(Int(v.spell)) == Ok(v.spell);
      assert GetCommandCastSpellEntity(j) == Ok(v);
    }
  }

  // CommandBarrierGateToggle
  datatype CommandBarrierGateToggle = CommandBarrierGateToggle(barrierId: EntityId)

  const DefaultCommandBarrierGateToggle: CommandBarrierGateToggle := CommandBarrierGateToggle(0)

  function CommandBarrierGateToggleToJson(v: CommandBarrierGateToggle): Outcome<Json>
  {
    var j1 := Put(Null, "barrier_id", Int(v.barrierId));
    Ok(j1)
  }

  function CommandBarrierGateToggleFromJson(j: Json, prior: CommandBarrierGateToggle): Outcome<CommandBarrierGateToggle>
  {
    var barrierIdJson :- At(j, "barrier_id");
    var barrierId :- U32FromJson(barrierIdJson);
    Ok(CommandBarrierGateToggle(barrierId))
  }

  function GetCommandBarrierGateToggle(j: Json): Outcome<CommandBarrierGateToggle>
  {
    CommandBarrierGateToggleFromJson(j, DefaultCommandBarrierGateToggle)
  }

  lemma CommandBarrierGateToggleRoundTrip(v: CommandBarrierGateToggle)
    ensures CommandBarrierGateToggleToJson(v).Ok? && CommandBarrierGateToggleToJson(v).value.Obj?
    ensures GetCommandBarrierGateToggle(CommandBarrierGateToggleToJson(v).value) == Ok(v)
  {
    hide Put, PutOptional, Get, At, OptionalAt, EncodeEach, DecodeEach, SeqFromJson, FixedFromJson, IntegerOf, U8FromJson, U16FromJson, U32FromJson, U64FromJson, EnumFromJson, FloatFromJson, BoolFromJson, StringFromJson;
  }

  // CommandBarrierBuild
  datatype CommandBarrierBuild = CommandBarrierBuild(barrierId: EntityId, invertedDirection: bool)

  const DefaultCommandBarrierBuild: CommandBarrierBuild := CommandBarrierBuild(0, false)

  function CommandBarrierBuildToJson(v: CommandBarrierBuild): Outcome<Json>
  {
    var j1 := Put(Null, "barrier_id", Int(v.barrierId));
    var j2 := Put(j1, "inverted_direction", Bool(v.invertedDirection));
    Ok(j2)
  }

  function CommandBarrierBuildFromJson(j: Json, prior: CommandBarrierBuild): Outcome<CommandBarrierBuild>
  {
    var barrierIdJson :- At(j, "barrier_id");
    var barrierId :- U32FromJson(barrierIdJson);
    var invertedDirectionJson :- At(j, "inverted_direction");
    var invertedDirection :- BoolFromJson(invertedDirectionJson);
    Ok(CommandBarrierBuild(barrierId, invertedDirection))
  }

  function GetCommandBarrierBuild(j: Json): Outcome<CommandBarrierBuild>
  {
    CommandBarrierBuildFromJson(j, DefaultCommandBarrierBuild)
  }

  lemma CommandBarrierBuildRoundTrip(v: CommandBarrierBuild)
    ensures CommandBarrierBuildToJson(v).Ok? && CommandBarrierBuildToJson(v).value.Obj?
    ensures GetCommandBarrierBuild(CommandBarrierBuildToJson(v).value) == Ok(v)
  {
    hide Put, PutOptional, Get, At, OptionalAt, EncodeEach, DecodeEach, SeqFromJson, FixedFromJson, IntegerOf, U8FromJson, U16FromJson, U32FromJson, U64FromJson, EnumFromJson, FloatFromJson, BoolFromJson, StringFromJson;
  }

  // CommandBarrierRepair
  datatype CommandBarrierRepair = CommandBarrierRepair(barrierId: EntityId)

  const DefaultCommandBarrierRepair: CommandBarrierRepair := CommandBarrierRepair(0)

  function CommandBarrierRepairToJson(v: CommandBarrierRepair): Outcome<Json>
  {
    var j1 := Put(Null, "barrier_id", Int(v.barrierId));
    Ok(j1)
  }

  function CommandBarrierRepairFromJson(j: Json, prior: CommandBarrierRepair): Outcome<CommandBarrierRepair>
  {
    var barrierIdJson :- At(j, "barrier_id");
    var barrierId :- U32FromJson(barrierIdJson);
    Ok(CommandBarrierRepair(barrierId))
  }

  function GetCommandBarrierRepair(j: Json): Outcome<CommandBarrierRepair>
  {
    CommandBarrierRepairFromJson(j, DefaultCommandBarrierRepair)
  }

  lemma CommandBarrierRepairRoundTrip(v: CommandBarrierRepair)
    ensures CommandBarrierRepairToJson(v).Ok? && CommandBarrierRepairToJson(v).value.Obj?
    ensures GetCommandBarrierRepair(CommandBarrierRepairToJson(v).value) == Ok(v)
  {
    hide Put, PutOptional, Get, At, OptionalAt, EncodeEach, DecodeEach, SeqFromJson, FixedFromJson, IntegerOf, U8FromJson, U16FromJson, U32FromJson, U64FromJson, EnumFromJson, FloatFromJson, BoolFromJson, StringFromJson;
  }

  // CommandBarrierCancelRepair
  datatype CommandBarrierCancelRepair = CommandBarrierCancelRepair(barrierId: EntityId)

  const DefaultCommandBarrierCancelRepair: CommandBarrierCancelRepair := CommandBarrierCancelRepair(0)

  function CommandBarrierCancelRepairToJson(v: CommandBarrierCancelRepair): Outcome<Json>
  {
    var j1 := Put(Null, "barrier_id", Int(v.barrierId));
    Ok(j1)
  }

  function CommandBarrierCancelRepairFromJson(j: Json, prior: CommandBarrierCancelRepair): Outcome<CommandBarrierCancelRepair>
  {
    var barrierIdJson :- At(j, "barrier_id");
    var barrierId :- U32FromJson(barrierIdJson);
    Ok(CommandBarrierCancelRepair(barrierId))
  }

  function GetCommandBarrierCancelRepair(j: Json): Outcome<CommandBarrierCancelRepair>
  {
    CommandBarrierCancelRepairFromJson(j, DefaultCommandBarrierCancelRepair)
  }

  lemma CommandBarrierCancelRepairRoundTrip(v: CommandBarrierCancelRepair)
    ensures CommandBarrierCancelRepairToJson(v).Ok? && CommandBarrierCancelRepairToJson(v).value.Obj?
    ensures GetCommandBarrierCancelRepair(CommandBarrierCancelRepairToJson(v).value) == Ok(v)
  {
    hide Put, PutOptional, Get, At, OptionalAt, EncodeEach, DecodeEach, SeqFromJson, FixedFromJson, IntegerOf, U8FromJson, U16FromJson, U32FromJson, U64FromJson, EnumFromJson, FloatFromJson, BoolFromJson, StringFromJson;
  }

  // CommandRepairBuilding
  datatype CommandRepairBuilding = CommandRepairBuilding(buildingId: EntityId)

  const DefaultCommandRepairBuilding: CommandRepairBuilding := CommandRepairBuilding(0)

  function CommandRepairBuildingToJson(v: CommandRepairBuilding): Outcome<Json>
  {
    var j1 := Put(Null, "building_id", Int(v.buildingId));
    Ok(j1)
  }

  function CommandRepairBuildingFromJson(j: Json, prior: CommandRepairBuilding): Outcome<CommandRepairBuilding>
  {
    var buildingIdJson :- At(j, "building_id");
    var buildingId :- U32FromJson(buildingIdJson);
    Ok(CommandRepairBuilding(buildingId))
  }

  function GetCommandRepairBuilding(j: Json): Outcome<CommandRepairBuilding>
  {
    CommandRepairBuildingFromJson(j, DefaultCommandRepairBuilding)
  }

  lemma CommandRepairBuildingRoundTrip(v: CommandRepairBuilding)
    ensures CommandRepairBuildingToJson(v).Ok? && CommandRepairBuildingToJson(v).value.Obj?
    ensures GetCommandRepairBuilding(CommandRepairBuildingToJson(v).value) == Ok(v)
  {
    hide Put, PutOptional, Get, At, OptionalAt, EncodeEach, DecodeEach, SeqFromJson, FixedFromJson, IntegerOf, U8FromJson, U16FromJson, U32FromJson, U64FromJson, EnumFromJson, FloatFromJson, BoolFromJson, StringFromJson;
  }

  // CommandCancelRepairBuilding
  datatype CommandCancelRepairBuilding = CommandCancelRepairBuilding(buildingId: EntityId)

  const DefaultCommandCancelRepairBuilding: CommandCancelRepairBuilding := CommandCancelRepairBuilding(0)

  function CommandCancelRepairBuildingToJson(v: CommandCancelRepairBuilding): Outcome<Json>
  {
    var j1 := Put(Null, "building_id", Int(v.buildingId));
    Ok(j1)
  }

  function CommandCancelRepairBuildingFromJson(j: Json, prior: CommandCancelRepairBuilding): Outcome<CommandCancelRepairBuilding>
  {
    var buildingIdJson :- At(j, "building_id");
    var buildingId :- U32FromJson(buildingIdJson);
    Ok(CommandCancelRepairBuilding(buildingId))
  }

  function GetCommandCancelRepairBuilding(j: Json): Outcome<CommandCancelRepairBuilding>
  {
    CommandCancelRepairBuildingFromJson(j, DefaultCommandCancelRepairBuilding)
  }

  lemma CommandCancelRepairBuildingRoundTrip(v: CommandCancelRepairBuilding)
    ensures CommandCancelRepairBuildingToJson(v).Ok? && CommandCancelRepairBuildingToJson(v).value.Obj?
    ensures GetCommandCancelRepairBuilding(CommandCancelRepairBuildingToJson(v).value) == Ok(v)
  {
    hide Put, PutOptional, Get, At, OptionalAt, EncodeEach, DecodeEach, SeqFromJson, FixedFromJson, IntegerOf, U8FromJson, U16FromJson, U32FromJson, U64FromJson, EnumFromJson, FloatFromJson, BoolFromJson, StringFromJson;
  }

  // CommandGroupAttack
  datatype CommandGroupAttack = CommandGroupAttack(squads: seq<EntityId>, targetEntityId: EntityId, forceAttack: bool)

  const DefaultCommandGroupAttack: CommandGroupAttack := CommandGroupAttack([], 0, false)

  function CommandGroupAttackToJson(v: CommandGroupAttack): Outcome<Json>
  {
    var squadsJson :- SeqToJson(v.squads, U32ToJson);
    var j1 := Put(Null, "squads", squadsJson);
    var j2 := Put(j1, "target_entity_id", Int(v.targetEntityId));
    var j3 := Put(j2, "force_attack", Bool(v.forceAttack));
    Ok(j3)
  }

  function CommandGroupAttackFromJson(j: Json, prior: CommandGroupAttack): Outcome<CommandGroupAttack>
  {
    var squadsJson :- At(j, "squads");
    var squads :- SeqFromJson(squadsJson, U32FromJson);
    var targetEntityIdJson :- At(j, "target_entity_id");
    var targetEntityId :- U32FromJson(targetEntityIdJson);
    var forceAttackJson :- At(j, "force_attack");
    var forceAttack :- BoolFromJson(forceAttackJson);
    Ok(CommandGroupAttack(squads, targetEntityId, forceAttack))
  }

  function GetCommandGroupAttack(j: Json): Outcome<CommandGroupAttack>
  {
    CommandGroupAttackFromJson(j, DefaultCommandGroupAttack)
  }

  /** Each key of the encoded object holds its field, as written. */
  lemma CommandGroupAttackFields(v: CommandGroupAttack)
    requires CommandGroupAttackToJson(v).Ok?
    ensures var j := CommandGroupAttackToJson(v).value;
      && j.Obj?
      && SeqToJson(v.squads, U32ToJson).Ok?
      && At(j, "squads") == Ok(SeqToJson(v.squads, U32ToJson).value)
      && At(j, "target_entity_id") == Ok(Int(v.targetEntityId))
      && At(j, "force_attack") == Ok(Bool(v.forceAttack))
  {
    hide Put, PutOptional, Get, At, OptionalAt, SeqToJson, IntegerOf;
  }

  lemma CommandGroupAttackRoundTrip(v: CommandGroupAttack)
    ensures CommandGroupAttackToJson(v).Ok? && CommandGroupAttackToJson(v).value.Obj?
    ensures GetCommandGroupAttack(CommandGroupAttackToJson(v).value) == Ok(v)
  {
    hide Put, PutOptional, Get, At, OptionalAt, EncodeEach, DecodeEach, SeqFromJson, FixedFromJson, IntegerOf, U8FromJson, U16FromJson, U32FromJson, U64FromJson, EnumFromJson, FloatFromJson, BoolFromJson, StringFromJson;
    SeqRoundTrip(v.squads, U32ToJson, U32FromJson);
    if CommandGroupAttackToJson(v).Ok? {
      CommandGroupAttackFields(v);
      var j := CommandGroupAttackToJson(v).value;
      hide CommandGroupAttackToJson;
      assert U32FromJson(Int(v.targetEntityId)) == Ok(v.targetEntityId);
      assert BoolFromJson(Bool(v.forceAttack)) == Ok(v.forceAttack);
      assert GetCommandGroupAttack(j) == Ok(v);
    }
  }

  // CommandGroupEnterWall
  datatype CommandGroupEnterWall = CommandGroupEnterWall(squads: seq<EntityId>, barrierId: EntityId)

  const DefaultCommandGroupEnterWall: CommandGroupEnterWall := CommandGroupEnterWall([], 0)

  function CommandGroupEnterWallToJson(v: CommandGroupEnterWall): Outcome<Json>
  {
    var squadsJson :- SeqToJson(v.squads, U32ToJson);
    var j1 := Put(Null, "squads", squadsJson);
    var j2 := Put(j1, "barrier_id", Int(v.barrierId));
    Ok(j2)
  }

  function CommandGroupEnterWallFromJson(j: Json, prior: CommandGroupEnterWall): Outcome<CommandGroupEnterWall>
  {
    var squadsJson :- At(j, "squads");
    var squads :- SeqFromJson(squadsJson, U32FromJson);
    var barrierIdJson :- At(j, "barrier_id");
    var barrierId :- U32FromJson(barrierIdJson);
    Ok(CommandGroupEnterWall(squads, barrierId))
  }

  function GetCommandGroupEnterWall(j: Json): Outcome<CommandGroupEnterWall>
  {
    CommandGroupEnterWallFromJson(j, DefaultCommandGroupEnterWall)
  }

  lemma CommandGroupEnterWallRoundTrip(v: CommandGroupEnterWall)
    ensures CommandGroupEnterWallToJson(v).Ok? && CommandGroupEnterWallToJson(v).value.Obj?
    ensures GetCommandGroupEnterWall(CommandGroupEnterWallToJson(v).value) == Ok(v)
  {
    hide Put, PutOptional, Get, At, OptionalAt, EncodeEach, DecodeEach, SeqFromJson, FixedFromJson, IntegerOf, U8FromJson, U16FromJson, U32FromJson, U64FromJson, EnumFromJson, FloatFromJson, BoolFromJson, StringFromJson;
    SeqRoundTrip(v.squads, U32ToJson, U32FromJson);
  }

  // CommandGroupExitWall
  datatype CommandGroupExitWall = CommandGroupExitWall(squads: seq<EntityId>, barrierId: EntityId)

  const DefaultCommandGroupExitWall: CommandGroupExitWall := CommandGroupExitWall([], 0)

  function CommandGroupExitWallToJson(v: CommandGroupExitWall): Outcome<Json>
  {
    var squadsJson :- SeqToJson(v.squads, U32ToJson);
    var j1 := Put(Null, "squads", squadsJson);
    var j2 := Put(j1, "barrier_id", Int(v.barrierId));
    Ok(j2)
  }

  function CommandGroupExitWallFromJson(j: Json, prior: CommandGroupExitWall): Outcome<CommandGroupExitWall>
  {
    var squadsJson :- At(j, "squads");
    var squads :- SeqFromJson(squadsJson, U32FromJson);
    var barrierIdJson :- At(j, "barrier_id");
    var barrierId :- U32FromJson(barrierIdJson);
    Ok(CommandGroupExitWall(squads, barrierId))
  }

  function GetCommandGroupExitWall(j: Json): Outcome<CommandGroupExitWall>
  {
    CommandGroupExitWallFromJson(j, DefaultCommandGroupExitWall)
  }

  lemma CommandGroupExitWallRoundTrip(v: CommandGroupExitWall)
    ensures CommandGroupExitWallToJson(v).Ok? && CommandGroupExitWallToJson(v).value.Obj?
    ensures GetCommandGroupExitWall(CommandGroupExitWallToJson(v).value) == Ok(v)
  {
    hide Put, PutOptional, Get, At, OptionalAt, EncodeEach, DecodeEach, SeqFromJson, FixedFromJson, IntegerOf, U8FromJson, U16FromJson, U32FromJson, U64FromJson, EnumFromJson, FloatFromJson, BoolFromJson, StringFromJson;
    SeqRoundTrip(v.squads, U32ToJson, U32FromJson);
  }

  // CommandGroupGoto
  datatype CommandGroupGoto = CommandGroupGoto(squads: seq<EntityId>, positions: seq<Position2D>, walkMode: WalkMode, orientation: real)

  const DefaultCommandGroupGoto: CommandGroupGoto := CommandGroupGoto([], [], 0, 0.0)

  function CommandGroupGotoToJson(v: CommandGroupGoto): Outcome<Json>
  {
    hide Position2DToJson;
    var squadsJson :- SeqToJson(v.squads, U32ToJson);
    var j1 := Put(Null, "squads", squadsJson);
    var positionsJson :- SeqToJson(v.positions, Position2DToJson);
    var j2 := Put(j1, "positions", positionsJson);
    var j3 := Put(j2, "walk_mode", Int(v.walkMode));
    var j4 := Put(j3, "orientation", Float(v.orientation));
    Ok(j4)
  }

  function CommandGroupGotoFromJson(j: Json, prior: CommandGroupGoto): Outcome<CommandGroupGoto>
  {
    hide Position2DFromJson;
    var squadsJson :- At(j, "squads");
    var squads :- SeqFromJson(squadsJson, U32FromJson);
    var positionsJson :- At(j, "positions");
    var positions :- SeqFromJson(positionsJson, GetPosition2D);
    var walkModeJson :- At(j, "walk_mode");
    var walkMode :- EnumFromJson(walkModeJson);
    var orientationJson :- At(j, "orientation");
    var orientation :- FloatFromJson(orientationJson);
    Ok(CommandGroupGoto(squads, positions, walkMode, orientation))
  }

  function GetCommandGroupGoto(j: Json): Outcome<CommandGroupGoto>
  {
    CommandGroupGotoFromJson(j, DefaultCommandGroupGoto)
  }

  /** Each key of the encoded object holds its field, as written. */
  lemma CommandGroupGotoFields(v: CommandGroupGoto)
    requires CommandGroupGotoToJson(v).Ok?
    ensures hide *; var j := CommandGroupGotoToJson(v).value;
      && j.Obj?
      && SeqToJson(v.squads, U32ToJson).Ok?
      && At(j, "squads") == Ok(SeqToJson(v.squads, U32ToJson).value)
      && SeqToJson(v.positions, Position2DToJson).Ok?
      && At(j, "positions") == Ok(SeqToJson(v.positions, Position2DToJson).value)
      && At(j, "walk_mode") == Ok(Int(v.walkMode))
      && At(j, "orientation") == Ok(Float(v.orientation))
  {
    hide Position2DToJson, Put, PutOptional, Get, At, OptionalAt, SeqToJson, IntegerOf;
  }

  lemma CommandGroupGotoRoundTrip(v: CommandGroupGoto)
    ensures hide *; CommandGroupGotoToJson(v).Ok? && CommandGroupGotoToJson(v).value.Obj?
    ensures hide *; GetCommandGroupGoto(CommandGroupGotoToJson(v).value) == Ok(v)
  {
    hide Position2DToJson, Position2DFromJson, Put, PutOptional, Get, At, OptionalAt, EncodeEach, DecodeEach, SeqFromJson, FixedFromJson, IntegerOf, U8FromJson, U16FromJson, U32FromJson, U64FromJson, EnumFromJson, FloatFromJson, BoolFromJson, StringFromJson;
    SeqRoundTrip(v.squads, U32ToJson, U32FromJson);
    Position2DSeqRoundTrip(v.positions);
    if CommandGroupGotoToJson(v).Ok? {
      CommandGroupGotoFields(v);
      var j := CommandGroupGotoToJson(v).value;
      hide CommandGroupGotoToJson;
      assert EnumFromJson(Int(v.walkMode)) == Ok(v.walkMode);
      assert FloatFromJson(Float(v.orientation)) == Ok(v.orientation);
      assert GetCommandGroupGoto(j) == Ok(v);
    }
  }

  // CommandGroupHoldPosition
  datatype CommandGroupHoldPosition = CommandGroupHoldPosition(squads: seq<EntityId>)

  const DefaultCommandGroupHoldPosition: CommandGroupHoldPosition := CommandGroupHoldPosition([])

  function CommandGroupHoldPositionToJson(v: CommandGroupHoldPosition): Outcome<Json>
  {
    var squadsJson :- SeqToJson(v.squads, U32ToJson);
    var j1 := Put(Null, "squads", squadsJson);
    Ok(j1)
  }

  function CommandGroupHoldPositionFromJson(j: Json, prior: CommandGroupHoldPosition): Outcome<CommandGroupHoldPosition>
  {
    var squadsJson :- At(j, "squads");
    var squads :- SeqFromJson(squadsJson, U32FromJson);
    Ok(CommandGroupHoldPosition(squads))
  }

  function GetCommandGroupHoldPosition(j: Json): Outcome<CommandGroupHoldPosition>
  {
    CommandGroupHoldPositionFromJson(j, DefaultCommandGroupHoldPosition)
  }

  lemma CommandGroupHoldPositionRoundTrip(v: CommandGroupHoldPosition)
    ensures CommandGroupHoldPositionToJson(v).Ok? && CommandGroupHoldPositionToJson(v).value.Obj?
    ensures GetCommandGroupHoldPosition(CommandGroupHoldPositionToJson(v).value) == Ok(v)
  {
    hide Put, PutOptional, Get, At, OptionalAt, EncodeEach, DecodeEach, SeqFromJson, FixedFromJson, IntegerOf, U8FromJson, U16FromJson, U32FromJson, U64FromJson, EnumFromJson, FloatFromJson, BoolFromJson, StringFromJson;
    SeqRoundTrip(v.squads, U32ToJson, U32FromJson);
  }

  // CommandGroupStopJob
  datatype CommandGroupStopJob = CommandGroupStopJob(squads: seq<EntityId>)

  const DefaultCommandGroupStopJob: CommandGroupStopJob := CommandGroupStopJob([])

  function CommandGroupStopJobToJson(v: CommandGroupStopJob): Outcome<Json>
  {
    var squadsJson :- SeqToJson(v.squads, U32ToJson);
    var j1 := Put(Null, "squads", squadsJson);
    Ok(j1)
  }

  function CommandGroupStopJobFromJson(j: Json, prior: CommandGroupStopJob): Outcome<CommandGroupStopJob>
  {
    var squadsJson :- At(j, "squads");
    var squads :- SeqFromJson(squadsJson, U32FromJson);
    Ok(CommandGroupStopJob(squads))
  }

  function GetCommandGroupStopJob(j: Json): Outcome<CommandGroupStopJob>
  {
    CommandGroupStopJobFromJson(j, DefaultCommandGroupStopJob)
  }

  lemma CommandGroupStopJobRoundTrip(v: CommandGroupStopJob)
    ensures CommandGroupStopJobToJson(v).Ok? && CommandGroupStopJobToJson(v).value.Obj?
    ensures GetCommandGroupStopJob(CommandGroupStopJobToJson(v).value) == Ok(v)
  {
    hide Put, PutOptional, Get, At, OptionalAt, EncodeEach, DecodeEach, SeqFromJson, FixedFromJson, IntegerOf, U8FromJson, U16FromJson, U32FromJson, U64FromJson, EnumFromJson, FloatFromJson, BoolFromJson, StringFromJson;
    SeqRoundTrip(v.squads, U32ToJson, U32FromJson);
  }

  // CommandModeChange
  datatype CommandModeChange = CommandModeChange(entityId: EntityId, newModeId: ModeId)

  const DefaultCommandModeChange: CommandModeChange := CommandModeChange(0, 0)

  function CommandModeChangeToJson(v: CommandModeChange): Outcome<Json>
  {
    var j1 := Put(Null, "entity_id", Int(v.entityId));
    var j2 := Put(j1, "new_mode_id", Int(v.newModeId));
    Ok(j2)
  }

  function CommandModeChangeFromJson(j: Json, prior: CommandModeChange): Outcome<CommandModeChange>
  {
    var entityIdJson :- At(j, "entity_id");
    var entityId :- U32FromJson(entityIdJson);
    var newModeIdJson :- At(j, "new_mode_id");
    var newModeId :- U32FromJson(newModeIdJson);
    Ok(CommandModeChange(entityId, newModeId))
  }

  function GetCommandModeChange(j: Json): Outcome<CommandModeChange>
  {
    CommandModeChangeFromJson(j, DefaultCommandModeChange)
  }

  lemma CommandModeChangeRoundTrip(v: CommandModeChange)
    ensures CommandModeChangeToJson(v).Ok? && CommandModeChangeToJson(v).value.Obj?
    ensures GetCommandModeChange(CommandModeChangeToJson(v).value) == Ok(v)
  {
    hide Put, PutOptional, Get, At, OptionalAt, EncodeEach, DecodeEach, SeqFromJson, FixedFromJson, IntegerOf, U8FromJson, U16FromJson, U32FromJson, U64FromJson, EnumFromJson, FloatFromJson, BoolFromJson, StringFromJson;
  }

  // CommandPowerSlotBuild
  datatype CommandPowerSlotBuild = CommandPowerSlotBuild(slotId: EntityId)

  const DefaultCommandPowerSlotBuild: CommandPowerSlotBuild := CommandPowerSlotBuild(0)

  function CommandPowerSlotBuildToJson(v: CommandPowerSlotBuild): Outcome<Json>
  {
    var j1 := Put(Null, "slot_id", Int(v.slotId));
    Ok(j1)
  }

  function CommandPowerSlotBuildFromJson(j: Json, prior: CommandPowerSlotBuild): Outcome<CommandPowerSlotBuild>
  {
    var slotIdJson :- At(j, "slot_id");
    var slotId :- U32FromJson(slotIdJson);
    Ok(CommandPowerSlotBuild(slotId))
  }

  function GetCommandPowerSlotBuild(j: Json): Outcome<CommandPowerSlotBuild>
  {
    CommandPowerSlotBuildFromJson(j, DefaultCommandPowerSlotBuild)
  }

  lemma CommandPowerSlotBuildRoundTrip(v: CommandPowerSlotBuild)
    ensures CommandPowerSlotBuildToJson(v).Ok? && CommandPowerSlotBuildToJson(v).value.Obj?
    ensures GetCommandPowerSlotBuild(CommandPowerSlotBuildToJson(v).value) == Ok(v)
  {
    hide Put, PutOptional, Get, At, OptionalAt, EncodeEach, DecodeEach, SeqFromJson, FixedFromJson, IntegerOf, U8FromJson, U16FromJson, U32FromJson, U64FromJson, EnumFromJson, FloatFromJson, BoolFromJson, StringFromJson;
  }

  // CommandTokenSlotBuild
  datatype CommandTokenSlotBuild = CommandTokenSlotBuild(slotId: EntityId, color: CreateOrbColor)

  const DefaultCommandTokenSlotBuild: CommandTokenSlotBuild := CommandTokenSlotBuild(0, 0)

  function CommandTokenSlotBuildToJson(v: CommandTokenSlotBuild): Outcome<Json>
  {
    var j1 := Put(Null, "slot_id", Int(v.slotId));
    var j2 := Put(j1, "color", Int(v.color));
    Ok(j2)
  }

  function CommandTokenSlotBuildFromJson(j: Json, prior: CommandTokenSlotBuild): Outcome<CommandTokenSlotBuild>
  {
    var slotIdJson :- At(j, "slot_id");
    var slotId :- U32FromJson(slotIdJson);
    var colorJson :- At(j, "color");
    var color :- EnumFromJson(colorJson);
    Ok(CommandTokenSlotBuild(slotId, color))
  }

  function GetCommandTokenSlotBuild(j: Json): Outcome<CommandTokenSlotBuild>
  {
    CommandTokenSlotBuildFromJson(j, DefaultCommandTokenSlotBuild)
  }

  lemma CommandTokenSlotBuildRoundTrip(v: CommandTokenSlotBuild)
    ensures CommandTokenSlotBuildToJson(v).Ok? && CommandTokenSlotBuildToJson(v).value.Obj?
    ensures GetCommandTokenSlotBuild(CommandTokenSlotBuildToJson(v).value) == Ok(v)
  {
    hide Put, PutOptional, Get, At, OptionalAt, EncodeEach, DecodeEach, SeqFromJson, FixedFromJson, IntegerOf, U8FromJson, U16FromJson, U32FromJson, U64FromJson, EnumFromJson, FloatFromJson, BoolFromJson, StringFromJson;
  }

  // CommandGroupKillEntity
  datatype CommandGroupKillEntity = CommandGroupKillEntity(entities: seq<EntityId>)

  const DefaultCommandGroupKillEntity: CommandGroupKillEntity := CommandGroupKillEntity([])

  function CommandGroupKillEntityToJson(v: CommandGroupKillEntity): Outcome<Json>
  {
    var entitiesJson :- SeqToJson(v.entities, U32ToJson);
    var j1 := Put(Null, "entities", entitiesJson);
    Ok(j1)
  }

  function CommandGroupKillEntityFromJson(j: Json, prior: CommandGroupKillEntity): Outcome<CommandGroupKillEntity>
  {
    var entitiesJson :- At(j, "entities");
    var entities :- SeqFromJson(entitiesJson, U32FromJson);
    Ok(CommandGroupKillEntity(entities))
  }

  function GetCommandGroupKillEntity(j: Json): Outcome<CommandGroupKillEntity>
  {
    CommandGroupKillEntityFromJson(j, DefaultCommandGroupKillEntity)
  }

  lemma CommandGroupKillEntityRoundTrip(v: CommandGroupKillEntity)
    ensures CommandGroupKillEntityToJson(v).Ok? && CommandGroupKillEntityToJson(v).value.Obj?
    ensures GetCommandGroupKillEntity(CommandGroupKillEntityToJson(v).value) == Ok(v)
  {
    hide Put, PutOptional, Get, At, OptionalAt, EncodeEach, DecodeEach, SeqFromJson, FixedFromJson, IntegerOf, U8FromJson, U16FromJson, U32FromJson, U64FromJson, EnumFromJson, FloatFromJson, BoolFromJson, StringFromJson;
    SeqRoundTrip(v.entities, U32ToJson, U32FromJson);
  }

  // CommandGroupSacrifice
  datatype CommandGroupSacrifice = CommandGroupSacrifice(squads: seq<EntityId>, target: EntityId)

  const DefaultCommandGroupSacrifice: CommandGroupSacrifice := CommandGroupSacrifice([], 0)

  function CommandGroupSacrificeToJson(v: CommandGroupSacrifice): Outcome<Json>
  {
    var squadsJson :- SeqToJson(v.squads, U32ToJson);
    var j1 := Put(Null, "squads", squadsJson);
    var j2 := Put(j1, "target", Int(v.target));
    Ok(j2)
  }

  function CommandGroupSacrificeFromJson(j: Json, prior: CommandGroupSacrifice): Outcome<CommandGroupSacrifice>
  {
    var squadsJson :- At(j, "squads");
    var squads :- SeqFromJson(squadsJson, U32FromJson);
    var targetJson :- At(j, "target");
    var target :- U32FromJson(targetJson);
    Ok(CommandGroupSacrifice(squads, target))
  }

  function GetCommandGroupSacrifice(j: Json): Outcome<CommandGroupSacrifice>
  {
    CommandGroupSacrificeFromJson(j, DefaultCommandGroupSacrifice)
  }

  lemma CommandGroupSacrificeRoundTrip(v: CommandGroupSacrifice)
    ensures CommandGroupSacrificeToJson(v).Ok? && CommandGroupSacrificeToJson(v).value.Obj?
    ensures GetCommandGroupSacrifice(CommandGroupSacrificeToJson(v).value) == Ok(v)
  {
    hide Put, PutOptional, Get, At, OptionalAt, EncodeEach, DecodeEach, SeqFromJson, FixedFromJson, IntegerOf, U8FromJson, U16FromJson, U32FromJson, U64FromJson, EnumFromJson, FloatFromJson, BoolFromJson, StringFromJson;
    SeqRoundTrip(v.squads, U32ToJson, U32FromJson);
  }

  // CommandPortalDefineExitPoint
  datatype CommandPortalDefineExitPoint = CommandPortalDefineExitPoint(portal: EntityId, xy: Position2D)

  const DefaultCommandPortalDefineExitPoint: CommandPortalDefineExitPoint := CommandPortalDefineExitPoint(0, DefaultPosition2D)

  function CommandPortalDefineExitPointToJson(v: CommandPortalDefineExitPoint): Outcome<Json>
  {
    hide Position2DToJson;
    var j1 := Put(Null, "portal", Int(v.portal));
    var xyJson :- Position2DToJson(v.xy);
    var j2 := Put(j1, "xy", xyJson);
    Ok(j2)
  }

  function CommandPortalDefineExitPointFromJson(j: Json, prior: CommandPortalDefineExitPoint): Outcome<CommandPortalDefineExitPoint>
  {
    hide Position2DFromJson;
    var portalJson :- At(j, "portal");
    var portal :- U32FromJson(portalJson);
    var xyJson :- At(j, "xy");
    var xy :- Position2DFromJson(xyJson, prior.xy);
    Ok(CommandPortalDefineExitPoint(portal, xy))
  }

  function GetCommandPortalDefineExitPoint(j: Json): Outcome<CommandPortalDefineExitPoint>
  {
    CommandPortalDefineExitPointFromJson(j, DefaultCommandPortalDefineExitPoint)
  }

  /** Each key of the encoded object holds its field, as written. */
  lemma CommandPortalDefineExitPointFields(v: CommandPortalDefineExitPoint)
    requires CommandPortalDefineExitPointToJson(v).Ok?
    ensures hide *; var j := CommandPortalDefineExitPointToJson(v).value;
      && j.Obj?
      && At(j, "portal") == Ok(Int(v.portal))
      && Position2DToJson(v.xy).Ok?
      && At(j, "xy") == Ok(Position2DToJson(v.xy).value)
  {
    hide Position2DToJson, Put, PutOptional, Get, At, OptionalAt, SeqToJson, IntegerOf;
  }

  lemma CommandPortalDefineExitPointRoundTrip(v: CommandPortalDefineExitPoint)
    ensures hide *; CommandPortalDefineExitPointToJson(v).Ok? && CommandPortalDefineExitPointToJson(v).value.Obj?
    ensures hide *; GetCommandPortalDefineExitPoint(CommandPortalDefineExitPointToJson(v).value) == Ok(v)
  {
    hide Position2DToJson, Position2DFromJson, Put, PutOptional, Get, At, OptionalAt, EncodeEach, DecodeEach, SeqFromJson, FixedFromJson, IntegerOf, U8FromJson, U16FromJson, U32FromJson, U64FromJson, EnumFromJson, FloatFromJson, BoolFromJson, StringFromJson;
    Position2DRoundTrip(v.xy);
    if CommandPortalDefineExitPointToJson(v).Ok? {
      CommandPortalDefineExitPointFields(v);
      var j := CommandPortalDefineExitPointToJson(v).value;
      hide CommandPortalDefineExitPointToJson;
      assert U32FromJson(Int(v.portal)) == Ok(v.portal);
      assert GetCommandPortalDefineExitPoint(j) == Ok(v);
    }
  }

  // CommandPortalRemoveExitPoint
  datatype CommandPortalRemoveExitPoint = CommandPortalRemoveExitPoint(portal: EntityId)

  const DefaultCommandPortalRemoveExitPoint: CommandPortalRemoveExitPoint := CommandPortalRemoveExitPoint(0)

  function CommandPortalRemoveExitPointToJson(v: CommandPortalRemoveExitPoint): Outcome<Json>
  {
    var j1 := Put(Null, "portal", Int(v.portal));
    Ok(j1)
  }

  function CommandPortalRemoveExitPointFromJson(j: Json, prior: CommandPortalRemoveExitPoint): Outcome<CommandPortalRemoveExitPoint>
  {
    var portalJson :- At(j, "portal");
    var portal :- U32FromJson(portalJson);
    Ok(CommandPortalRemoveExitPoint(portal))
  }

  function GetCommandPortalRemoveExitPoint(j: Json): Outcome<CommandPortalRemoveExitPoint>
  {
    CommandPortalRemoveExitPointFromJson(j, DefaultCommandPortalRemoveExitPoint)
  }

  lemma CommandPortalRemoveExitPointRoundTrip(v: CommandPortalRemoveExitPoint)
    ensures CommandPortalRemoveExitPointToJson(v).Ok? && CommandPortalRemoveExitPointToJson(v).value.Obj?
    ensures GetCommandPortalRemoveExitPoint(CommandPortalRemoveExitPointToJson(v).value) == Ok(v)
  {
    hide Put, PutOptional, Get, At, OptionalAt, EncodeEach, DecodeEach, SeqFromJson, FixedFromJson, IntegerOf, U8FromJson, U16FromJson, U32FromJson, U64FromJson, EnumFromJson, FloatFromJson, BoolFromJson, StringFromJson;
  }

  // CommandTunnelMakeExitPoint
  datatype CommandTunnelMakeExitPoint = CommandTunnelMakeExitPoint(portal: EntityId)

  const DefaultCommandTunnelMakeExitPoint: CommandTunnelMakeExitPoint := CommandTunnelMakeExitPoint(0)

  function CommandTunnelMakeExitPointToJson(v: CommandTunnelMakeExitPoint): Outcome<Json>
  {
    var j1 := Put(Null, "portal", Int(v.portal));
    Ok(j1)
  }

  function CommandTunnelMakeExitPointFromJson(j: Json, prior: CommandTunnelMakeExitPoint): Outcome<CommandTunnelMakeExitPoint>
  {
    var portalJson :- At(j, "portal");
    var portal :- U32FromJson(portalJson);
    Ok(CommandTunnelMakeExitPoint(portal))
  }

  function GetCommandTunnelMakeExitPoint(j: Json): Outcome<CommandTunnelMakeExitPoint>
  {
    CommandTunnelMakeExitPointFromJson(j, DefaultCommandTunnelMakeExitPoint)
  }

  lemma CommandTunnelMakeExitPointRoundTrip(v: CommandTunnelMakeExitPoint)
    ensures CommandTunnelMakeExitPointToJson(v).Ok? && CommandTunnelMakeExitPointToJson(v).value.Obj?
    ensures GetCommandTunnelMakeExitPoint(CommandTunnelMakeExitPointToJson(v).value) == Ok(v)
  {
    hide Put, PutOptional, Get, At, OptionalAt, EncodeEach, DecodeEach, SeqFromJson, FixedFromJson, IntegerOf, U8FromJson, U16FromJson, U32FromJson, U64FromJson, EnumFromJson, FloatFromJson, BoolFromJson, StringFromJson;
  }

  // CommandPing
  datatype CommandPing = CommandPing(xy: Position2D, ping: Ping)

  const DefaultCommandPing: CommandPing := CommandPing(DefaultPosition2D, 0)

  function CommandPingToJson(v: CommandPing): Outcome<Json>
  {
    hide Position2DToJson;
    var xyJson :- Position2DToJson(v.xy);
    var j1 := Put(Null, "xy", xyJson);
    var j2 := Put(j1, "ping", Int(v.ping));
    Ok(j2)
  }

  function CommandPingFromJson(j: Json, prior: CommandPing): Outcome<CommandPing>
  {
    hide Position2DFromJson;
    var xyJson :- At(j, "xy");
    var xy :- Position2DFromJson(xyJson, prior.xy);
    var pingJson :- At(j, "ping");
    var ping :- EnumFromJson(pingJson);
    Ok(CommandPing(xy, ping))
  }

  function GetCommandPing(j: Json): Outcome<CommandPing>
  {
    CommandPingFromJson(j, DefaultCommandPing)
  }

  /** Each key of the encoded object holds its field, as written. */
  lemma CommandPingFields(v: CommandPing)
    requires CommandPingToJson(v).Ok?
    ensures hide *; var j := CommandPingToJson(v).value;
      && j.Obj?
      && Position2DToJson(v.xy).Ok?
      && At(j, "xy") == Ok(Position2DToJson(v.xy).value)
      && At(j, "ping") == Ok(Int(v.ping))
  {
    hide Position2DToJson, Put, PutOptional, Get, At, OptionalAt, SeqToJson, IntegerOf;
  }

  lemma CommandPingRoundTrip(v: CommandPing)
    ensures hide *; CommandPingToJson(v).Ok? && CommandPingToJson(v).value.Obj?
    ensures hide *; GetCommandPing(CommandPingToJson(v).value) == Ok(v)
  {
    hide Position2DToJson, Position2DFromJson, Put, PutOptional, Get, At, OptionalAt, EncodeEach, DecodeEach, SeqFromJson, FixedFromJson, IntegerOf, U8FromJson, U16FromJson, U32FromJson, U64FromJson, EnumFromJson, FloatFromJson, BoolFromJson, StringFromJson;
    Position2DRoundTrip(v.xy);
    if CommandPingToJson(v).Ok? {
      CommandPingFields(v);
      var j := CommandPingToJson(v).value;
      hide CommandPingToJson;
      assert EnumFromJson(Int(v.ping)) == Ok(v.ping);
      assert GetCommandPing(j) == Ok(v);
    }
  }

  // CommandWhisperToMaster
  datatype CommandWhisperToMaster = CommandWhisperToMaster(text: string)

  const DefaultCommandWhisperToMaster: CommandWhisperToMaster := CommandWhisperToMaster("")

  function CommandWhisperToMasterToJson(v: CommandWhisperToMaster): Outcome<Json>
  {
    var j1 := Put(Null, "text", Str(v.text));
    Ok(j1)
  }

  function CommandWhisperToMasterFromJson(j: Json, prior: CommandWhisperToMaster): Outcome<CommandWhisperToMaster>
  {
    var textJson :- At(j, "text");
    var text :- StringFromJson(textJson);
    Ok(CommandWhisperToMaster(text))
  }

  function GetCommandWhisperToMaster(j: Json): Outcome<CommandWhisperToMaster>
  {
    CommandWhisperToMasterFromJson(j, DefaultCommandWhisperToMaster)
  }

  lemma CommandWhisperToMasterRoundTrip(v: CommandWhisperToMaster)
    ensures CommandWhisperToMasterToJson(v).Ok? && CommandWhisperToMasterToJson(v).value.Obj?
    ensures GetCommandWhisperToMaster(CommandWhisperToMasterToJson(v).value) == Ok(v)
  {
    hide Put, PutOptional, Get, At, OptionalAt, EncodeEach, DecodeEach, SeqFromJson, FixedFromJson, IntegerOf, U8FromJson, U16FromJson, U32FromJson, U64FromJson, EnumFromJson, FloatFromJson, BoolFromJson, StringFromJson;
  }

  // Command
  datatype Command =
    | Invalid
    | BuildHouse(buildHouse: CommandBuildHouse)
    | CastSpellGod(castSpellGod: CommandCastSpellGod)
    | CastSpellGodMulti(castSpellGodMulti: CommandCastSpellGodMulti)
    | ProduceSquad(produceSquad: CommandProduceSquad)
    | ProduceSquadOnBarrier(produceSquadOnBarrier: CommandProduceSquadOnBarrier)
    | CastSpellEntity(castSpellEntity: CommandCastSpellEntity)
    | BarrierGateToggle(barrierGateToggle: CommandBarrierGateToggle)
    | BarrierBuild(barrierBuild: CommandBarrierBuild)
    | BarrierRepair(barrierRepair: CommandBarrierRepair)
    | BarrierCancelRepair(barrierCancelRepair: CommandBarrierCancelRepair)
    | RepairBuilding(repairBuilding: CommandRepairBuilding)
    | CancelRepairBuilding(cancelRepairBuilding: CommandCancelRepairBuilding)
    | GroupAttack(groupAttack: CommandGroupAttack)
    | GroupEnterWall(groupEnterWall: CommandGroupEnterWall)
    | GroupExitWall(groupExitWall: CommandGroupExitWall)
    | GroupGoto(groupGoto: CommandGroupGoto)
    | GroupHoldPosition(groupHoldPosition: CommandGroupHoldPosition)
    | GroupStopJob(groupStopJob: CommandGroupStopJob)
    | ModeChange(modeChange: CommandModeChange)
    | PowerSlotBuild(powerSlotBuild: CommandPowerSlotBuild)
    | TokenSlotBuild(tokenSlotBuild: CommandTokenSlotBuild)
    | GroupKillEntity(groupKillEntity: CommandGroupKillEntity)
    | GroupSacrifice(groupSacrifice: CommandGroupSacrifice)
    | PortalDefineExitPoint(portalDefineExitPoint: CommandPortalDefineExitPoint)
    | PortalRemoveExitPoint(portalRemoveExitPoint: CommandPortalRemoveExitPoint)
    | TunnelMakeExitPoint(tunnelMakeExitPoint: CommandTunnelMakeExitPoint)
    | Ping(ping: CommandPing)
    | Surrender
    | WhisperToMaster(whisperToMaster: CommandWhisperToMaster)

  /** The labels `from_json` tests, in order. */
  const CommandLabels: seq<string> := ["BuildHouse", "CastSpellGod", "CastSpellGodMulti", "ProduceSquad", "ProduceSquadOnBarrier", "CastSpellEntity", "BarrierGateToggle", "BarrierBuild", "BarrierRepair", "BarrierCancelRepair", "RepairBuilding", "CancelRepairBuilding", "GroupAttack", "GroupEnterWall", "GroupExitWall", "GroupGoto", "GroupHoldPosition", "GroupStopJob", "ModeChange", "PowerSlotBuild", "TokenSlotBuild", "GroupKillEntity", "GroupSacrifice", "PortalDefineExitPoint", "PortalRemoveExitPoint", "TunnelMakeExitPoint", "Ping", "Surrender", "WhisperToMaster"]

  /** The position of the case in the `std::variant`; 0 is `Invalid`. */
  function CommandIndex(v: Command): nat
  {
    match v
    case Invalid => 0
    case BuildHouse(_) => 1
    case CastSpellGod(_) => 2
    case CastSpellGodMulti(_) => 3
    case ProduceSquad(_) => 4
    case ProduceSquadOnBarrier(_) => 5
    case CastSpellEntity(_) => 6
    case BarrierGateToggle(_) => 7
    case BarrierBuild(_) => 8
    case BarrierRepair(_) => 9
    case BarrierCancelRepair(_) => 10
    case RepairBuilding(_) => 11
    case CancelRepairBuilding(_) => 12
    case GroupAttack(_) => 13
    case GroupEnterWall(_) => 14
    case GroupExitWall(_) => 15
    case GroupGoto(_) => 16
    case GroupHoldPosition(_) => 17
    case GroupStopJob(_) => 18
    case ModeChange(_) => 19
    case PowerSlotBuild(_) => 20
    case TokenSlotBuild(_) => 21
    case GroupKillEntity(_) => 22
    case GroupSacrifice(_) => 23
    case PortalDefineExitPoint(_) => 24
    case PortalRemoveExitPoint(_) => 25
    case TunnelMakeExitPoint(_) => 26
    case Ping(_) => 27
    case Surrender => 28
    case WhisperToMaster(_) => 29
  }

  predicate CommandEncodable(v: Command)
  {
    hide CommandCastSpellGodEncodable, CommandCastSpellEntityEncodable;
    match v
    case Invalid => false
    case BuildHouse(_) => true
    case CastSpellGod(p) => CommandCastSpellGodEncodable(p)
    case CastSpellGodMulti(_) => true
    case ProduceSquad(_) => true
    case ProduceSquadOnBarrier(_) => true
    case CastSpellEntity(p) => CommandCastSpellEntityEncodable(p)
    case BarrierGateToggle(_) => true
    case BarrierBuild(_) => true
    case BarrierRepair(_) => true
    case BarrierCancelRepair(_) => true
    case RepairBuilding(_) => true
    case CancelRepairBuilding(_) => true
    case GroupAttack(_) => true
    case GroupEnterWall(_) => true
    case GroupExitWall(_) => true
    case GroupGoto(_) => true
    case GroupHoldPosition(_) => true
    case GroupStopJob(_) => true
    case ModeChange(_) => true
    case PowerSlotBuild(_) => true
    case TokenSlotBuild(_) => true
    case GroupKillEntity(_) => true
    case GroupSacrifice(_) => true
    case PortalDefineExitPoint(_) => true
    case PortalRemoveExitPoint(_) => true
    case TunnelMakeExitPoint(_) => true
    case Ping(_) => true
    case Surrender => true
    case WhisperToMaster(_) => true
  }

  /** The payload of the active case, as the union member holding it encodes. */
  function CommandPayloadToJson(v: Command): Outcome<Json>
  {
    hide CommandBuildHouseToJson, CommandCastSpellGodToJson, CommandCastSpellGodMultiToJson, CommandProduceSquadToJson, CommandProduceSquadOnBarrierToJson, CommandCastSpellEntityToJson, CommandBarrierGateToggleToJson, CommandBarrierBuildToJson, CommandBarrierRepairToJson, CommandBarrierCancelRepairToJson, CommandRepairBuildingToJson, CommandCancelRepairBuildingToJson, CommandGroupAttackToJson, CommandGroupEnterWallToJson, CommandGroupExitWallToJson, CommandGroupGotoToJson, CommandGroupHoldPositionToJson, CommandGroupStopJobToJson, CommandModeChangeToJson, CommandPowerSlotBuildToJson, CommandTokenSlotBuildToJson, CommandGroupKillEntityToJson, CommandGroupSacrificeToJson, CommandPortalDefineExitPointToJson, CommandPortalRemoveExitPointToJson, CommandTunnelMakeExitPointToJson, CommandPingToJson, CommandWhisperToMasterToJson;
    match v
    case Invalid => Err(InvalidDefaultVariant)
    case BuildHouse(p) => CommandBuildHouseToJson(p)
    case CastSpellGod(p) => CommandCastSpellGodToJson(p)
    case CastSpellGodMulti(p) => CommandCastSpellGodMultiToJson(p)
    case ProduceSquad(p) => CommandProduceSquadToJson(p)
    case ProduceSquadOnBarrier(p) => CommandProduceSquadOnBarrierToJson(p)
    case CastSpellEntity(p) => CommandCastSpellEntityToJson(p)
    case BarrierGateToggle(p) => CommandBarrierGateToggleToJson(p)
    case BarrierBuild(p) => CommandBarrierBuildToJson(p)
    case BarrierRepair(p) => CommandBarrierRepairToJson(p)
    case BarrierCancelRepair(p) => CommandBarrierCancelRepairToJson(p)
    case RepairBuilding(p) => CommandRepairBuildingToJson(p)
    case CancelRepairBuilding(p) => CommandCancelRepairBuildingToJson(p)
    case GroupAttack(p) => CommandGroupAttackToJson(p)
    case GroupEnterWall(p) => CommandGroupEnterWallToJson(p)
    case GroupExitWall(p) => CommandGroupExitWallToJson(p)
    case GroupGoto(p) => CommandGroupGotoToJson(p)
    case GroupHoldPosition(p) => CommandGroupHoldPositionToJson(p)
    case GroupStopJob(p) => CommandGroupStopJobToJson(p)
    case ModeChange(p) => CommandModeChangeToJson(p)
    case PowerSlotBuild(p) => CommandPowerSlotBuildToJson(p)
    case TokenSlotBuild(p) => CommandTokenSlotBuildToJson(p)
    case GroupKillEntity(p) => CommandGroupKillEntityToJson(p)
    case GroupSacrifice(p) => CommandGroupSacrificeToJson(p)
    case PortalDefineExitPoint(p) => CommandPortalDefineExitPointToJson(p)
    case PortalRemoveExitPoint(p) => CommandPortalRemoveExitPointToJson(p)
    case TunnelMakeExitPoint(p) => CommandTunnelMakeExitPointToJson(p)
    case Ping(p) => CommandPingToJson(p)
    case Surrender => Ok(MarkerJson("CommandSurrender"))
    case WhisperToMaster(p) => CommandWhisperToMasterToJson(p)
  }

  function CommandToJson(v: Command): Outcome<Json>
  {
    hide CommandBuildHouseToJson, CommandCastSpellGodToJson, CommandCastSpellGodMultiToJson, CommandProduceSquadToJson, CommandProduceSquadOnBarrierToJson, CommandCastSpellEntityToJson, CommandBarrierGateToggleToJson, CommandBarrierBuildToJson, CommandBarrierRepairToJson, CommandBarrierCancelRepairToJson, CommandRepairBuildingToJson, CommandCancelRepairBuildingToJson, CommandGroupAttackToJson, CommandGroupEnterWallToJson, CommandGroupExitWallToJson, CommandGroupGotoToJson, CommandGroupHoldPositionToJson, CommandGroupStopJobToJson, CommandModeChangeToJson, CommandPowerSlotBuildToJson, CommandTokenSlotBuildToJson, CommandGroupKillEntityToJson, CommandGroupSacrificeToJson, CommandPortalDefineExitPointToJson, CommandPortalRemoveExitPointToJson, CommandTunnelMakeExitPointToJson, CommandPingToJson, CommandWhisperToMasterToJson;
    match v
    case Invalid => Err(InvalidDefaultVariant)
    case BuildHouse(p) => var x :- CommandBuildHouseToJson(p); Ok(Obj([("BuildHouse", x)]))
    case CastSpellGod(p) => var x :- CommandCastSpellGodToJson(p); Ok(Obj([("CastSpellGod", x)]))
    case CastSpellGodMulti(p) => var x :- CommandCastSpellGodMultiToJson(p); Ok(Obj([("CastSpellGodMulti", x)]))
    case ProduceSquad(p) => var x :- CommandProduceSquadToJson(p); Ok(Obj([("ProduceSquad", x)]))
    case ProduceSquadOnBarrier(p) => var x :- CommandProduceSquadOnBarrierToJson(p); Ok(Obj([("ProduceSquadOnBarrier", x)]))
    case CastSpellEntity(p) => var x :- CommandCastSpellEntityToJson(p); Ok(Obj([("CastSpellEntity", x)]))
    case BarrierGateToggle(p) => var x :- CommandBarrierGateToggleToJson(p); Ok(Obj([("BarrierGateToggle", x)]))
    case BarrierBuild(p) => var x :- CommandBarrierBuildToJson(p); Ok(Obj([("BarrierBuild", x)]))
    case BarrierRepair(p) => var x :- CommandBarrierRepairToJson(p); Ok(Obj([("BarrierRepair", x)]))
    case BarrierCancelRepair(p) => var x :- CommandBarrierCancelRepairToJson(p); Ok(Obj([("BarrierCancelRepair", x)]))
    case RepairBuilding(p) => var x :- CommandRepairBuildingToJson(p); Ok(Obj([("RepairBuilding", x)]))
    case CancelRepairBuilding(p) => var x :- CommandCancelRepairBuildingToJson(p); Ok(Obj([("CancelRepairBuilding", x)]))
    case GroupAttack(p) => var x :- CommandGroupAttackToJson(p); Ok(Obj([("GroupAttack", x)]))
    case GroupEnterWall(p) => var x :- CommandGroupEnterWallToJson(p); Ok(Obj([("GroupEnterWall", x)]))
    case GroupExitWall(p) => var x :- CommandGroupExitWallToJson(p); Ok(Obj([("GroupExitWall", x)]))
    case GroupGoto(p) => var x :- CommandGroupGotoToJson(p); Ok(Obj([("GroupGoto", x)]))
    case GroupHoldPosition(p) => var x :- CommandGroupHoldPositionToJson(p); Ok(Obj([("GroupHoldPosition", x)]))
    case GroupStopJob(p) => var x :- CommandGroupStopJobToJson(p); Ok(Obj([("GroupStopJob", x)]))
    case ModeChange(p) => var x :- CommandModeChangeToJson(p); Ok(Obj([("ModeChange", x)]))
    case PowerSlotBuild(p) => var x :- CommandPowerSlotBuildToJson(p); Ok(Obj([("PowerSlotBuild", x)]))
    case TokenSlotBuild(p) => var x :- CommandTokenSlotBuildToJson(p); Ok(Obj([("TokenSlotBuild", x)]))
    case GroupKillEntity(p) => var x :- CommandGroupKillEntityToJson(p); Ok(Obj([("GroupKillEntity", x)]))
    case GroupSacrifice(p) => var x :- CommandGroupSacrificeToJson(p); Ok(Obj([("GroupSacrifice", x)]))
    case PortalDefineExitPoint(p) => var x :- CommandPortalDefineExitPointToJson(p); Ok(Obj([("PortalDefineExitPoint", x)]))
    case PortalRemoveExitPoint(p) => var x :- CommandPortalRemoveExitPointToJson(p); Ok(Obj([("PortalRemoveExitPoint", x)]))
    case TunnelMakeExitPoint(p) => var x :- CommandTunnelMakeExitPointToJson(p); Ok(Obj([("TunnelMakeExitPoint", x)]))
    case Ping(p) => var x :- CommandPingToJson(p); Ok(Obj([("Ping", x)]))
    case Surrender => Ok(Obj([("Surrender", MarkerJson("CommandSurrender"))]))
    case WhisperToMaster(p) => var x :- CommandWhisperToMasterToJson(p); Ok(Obj([("WhisperToMaster", x)]))
  }

  /** `value.get<Payload>()` for case `index` of `CommandLabels`. */
  function CommandCase(index: nat, payload: Json): Outcome<Command>
    requires 1 <= index <= |CommandLabels|
  {
    hide CommandBuildHouseFromJson, CommandCastSpellGodFromJson, CommandCastSpellGodMultiFromJson, CommandProduceSquadFromJson, CommandProduceSquadOnBarrierFromJson, CommandCastSpellEntityFromJson, CommandBarrierGateToggleFromJson, CommandBarrierBuildFromJson, CommandBarrierRepairFromJson, CommandBarrierCancelRepairFromJson, CommandRepairBuildingFromJson, CommandCancelRepairBuildingFromJson, CommandGroupAttackFromJson, CommandGroupEnterWallFromJson, CommandGroupExitWallFromJson, CommandGroupGotoFromJson, CommandGroupHoldPositionFromJson, CommandGroupStopJobFromJson, CommandModeChangeFromJson, CommandPowerSlotBuildFromJson, CommandTokenSlotBuildFromJson, CommandGroupKillEntityFromJson, CommandGroupSacrificeFromJson, CommandPortalDefineExitPointFromJson, CommandPortalRemoveExitPointFromJson, CommandTunnelMakeExitPointFromJson, CommandPingFromJson, CommandWhisperToMasterFromJson;
    match index
    case 1 => var x :- GetCommandBuildHouse(payload); Ok(Command.BuildHouse(x))
    case 2 => var x :- GetCommandCastSpellGod(payload); Ok(Command.CastSpellGod(x))
    case 3 => var x :- GetCommandCastSpellGodMulti(payload); Ok(Command.CastSpellGodMulti(x))
    case 4 => var x :- GetCommandProduceSquad(payload); Ok(Command.ProduceSquad(x))
    case 5 => var x :- GetCommandProduceSquadOnBarrier(payload); Ok(Command.ProduceSquadOnBarrier(x))
    case 6 => var x :- GetCommandCastSpellEntity(payload); Ok(Command.CastSpellEntity(x))
    case 7 => var x :- GetCommandBarrierGateToggle(payload); Ok(Command.BarrierGateToggle(x))
    case 8 => var x :- GetCommandBarrierBuild(payload); Ok(Command.BarrierBuild(x))
    case 9 => var x :- GetCommandBarrierRepair(payload); Ok(Command.BarrierRepair(x))
    case 10 => var x :- GetCommandBarrierCancelRepair(payload); Ok(Command.BarrierCancelRepair(x))
    case 11 => var x :- GetCommandRepairBuilding(payload); Ok(Command.RepairBuilding(x))
    case 12 => var x :- GetCommandCancelRepairBuilding(payload); Ok(Command.CancelRepairBuilding(x))
    case 13 => var x :- GetCommandGroupAttack(payload); Ok(Command.GroupAttack(x))
    case 14 => var x :- GetCommandGroupEnterWall(payload); Ok(Command.GroupEnterWall(x))
    case 15 => var x :- GetCommandGroupExitWall(payload); Ok(Command.GroupExitWall(x))
    case 16 => var x :- GetCommandGroupGoto(payload); Ok(Command.GroupGoto(x))
    case 17 => var x :- GetCommandGroupHoldPosition(payload); Ok(Command.GroupHoldPosition(x))
    case 18 => var x :- GetCommandGroupStopJob(payload); Ok(Command.GroupStopJob(x))
    case 19 => var x :- GetCommandModeChange(payload); Ok(Command.ModeChange(x))
    case 20 => var x :- GetCommandPowerSlotBuild(payload); Ok(Command.PowerSlotBuild(x))
    case 21 => var x :- GetCommandTokenSlotBuild(payload); Ok(Command.TokenSlotBuild(x))
    case 22 => var x :- GetCommandGroupKillEntity(payload); Ok(Command.GroupKillEntity(x))
    case 23 => var x :- GetCommandGroupSacrifice(payload); Ok(Command.GroupSacrifice(x))
    case 24 => var x :- GetCommandPortalDefineExitPoint(payload); Ok(Command.PortalDefineExitPoint(x))
    case 25 => var x :- GetCommandPortalRemoveExitPoint(payload); Ok(Command.PortalRemoveExitPoint(x))
    case 26 => var x :- GetCommandTunnelMakeExitPoint(payload); Ok(Command.TunnelMakeExitPoint(x))
    case 27 => var x :- GetCommandPing(payload); Ok(Command.Ping(x))
    case 28 => Ok(Command.Surrender)
    case _ => var x :- GetCommandWhisperToMaster(payload); Ok(Command.WhisperToMaster(x))
  }

  function CommandFromJson(j: Json, prior: Command): Outcome<Command>
  {
    match Select(CommandLabels, j)
    case NoItems => Err(InvalidJson)
    case Unlabelled => Ok(prior)
    case Selected(index, payload) => CommandCase(index, payload)
  }

  function GetCommand(j: Json): Outcome<Command>
  {
    CommandFromJson(j, Command.Invalid)
  }

  // the table is checked in two halves, and across them, to keep each proof small
  lemma CommandLabelsDistinctHead()
    ensures forall i, k :: 0 <= i < k < 14 ==> CommandLabels[i] != CommandLabels[k]
  {
  }

  lemma CommandLabelsDistinctTail()
    ensures forall i, k :: 14 <= i < k < |CommandLabels| ==> CommandLabels[i] != CommandLabels[k]
  {
  }

  lemma CommandLabelsAcross()
    ensures forall i, k :: 0 <= i < 14 <= k < |CommandLabels| ==> CommandLabels[i] != CommandLabels[k]
  {
  }

  /** No label of `CommandLabels` occurs twice. */
  lemma CommandLabelsDistinct()
    ensures Distinct(CommandLabels)
  {
    CommandLabelsDistinctHead();
    CommandLabelsDistinctTail();
    CommandLabelsAcross();
  }

  /** The round trip for cases 0 to 2, proved apart to keep each proof small. */
  lemma CommandRoundTripPart1(v: Command, prior: Command)
    requires 0 <= CommandIndex(v) <= 2
    ensures hide *; CommandToJson(v).Ok? <==> CommandEncodable(v)
    ensures hide *; CommandEncodable(v) ==> CommandFromJson(CommandToJson(v).value, prior) == Ok(v)
  {
    CommandLabelsDistinct();
    hide CommandBuildHouseToJson, CommandBuildHouseFromJson, CommandCastSpellGodToJson, CommandCastSpellGodFromJson, CommandCastSpellGodEncodable, CommandCastSpellGodMultiToJson, CommandCastSpellGodMultiFromJson, CommandProduceSquadToJson, CommandProduceSquadFromJson, CommandProduceSquadOnBarrierToJson, CommandProduceSquadOnBarrierFromJson, CommandCastSpellEntityToJson, CommandCastSpellEntityFromJson, CommandCastSpellEntityEncodable, CommandBarrierGateToggleToJson, CommandBarrierGateToggleFromJson, CommandBarrierBuildToJson, CommandBarrierBuildFromJson, CommandBarrierRepairToJson, CommandBarrierRepairFromJson, CommandBarrierCancelRepairToJson, CommandBarrierCancelRepairFromJson, CommandRepairBuildingToJson, CommandRepairBuildingFromJson, CommandCancelRepairBuildingToJson, CommandCancelRepairBuildingFromJson, CommandGroupAttackToJson, CommandGroupAttackFromJson, CommandGroupEnterWallToJson, CommandGroupEnterWallFromJson, CommandGroupExitWallToJson, CommandGroupExitWallFromJson, CommandGroupGotoToJson, CommandGroupGotoFromJson, CommandGroupHoldPositionToJson, CommandGroupHoldPositionFromJson, CommandGroupStopJobToJson, CommandGroupStopJobFromJson, CommandModeChangeToJson, CommandModeChangeFromJson, CommandPowerSlotBuildToJson, CommandPowerSlotBuildFromJson, CommandTokenSlotBuildToJson, CommandTokenSlotBuildFromJson, CommandGroupKillEntityToJson, CommandGroupKillEntityFromJson, CommandGroupSacrificeToJson, CommandGroupSacrificeFromJson, CommandPortalDefineExitPointToJson, CommandPortalDefineExitPointFromJson, CommandPortalRemoveExitPointToJson, CommandPortalRemoveExitPointFromJson, CommandTunnelMakeExitPointToJson, CommandTunnelMakeExitPointFromJson, CommandPingToJson, CommandPingFromJson, CommandWhisperToMasterToJson, CommandWhisperToMasterFromJson, Select, Items, LastIndexOf, Distinct;
    match v
    case Invalid =>
    case BuildHouse(p) =>
      CommandBuildHouseRoundTrip(p);
      if CommandBuildHouseToJson(p).Ok? {
        SelectEncoded(CommandLabels, 1, CommandBuildHouseToJson(p).value);
      }
    case CastSpellGod(p) =>
      CommandCastSpellGodRoundTrip(p);
      if CommandCastSpellGodToJson(p).Ok? {
        SelectEncoded(CommandLabels, 2, CommandCastSpellGodToJson(p).value);
      }
    case _ => assert false;
  }

  /** The round trip for cases 3 to 5, proved apart to keep each proof small. */
  lemma CommandRoundTripPart2(v: Command, prior: Command)
    requires 3 <= CommandIndex(v) <= 5
    ensures hide *; CommandToJson(v).Ok? <==> CommandEncodable(v)
    ensures hide *; CommandEncodable(v) ==> CommandFromJson(CommandToJson(v).value, prior) == Ok(v)
  {
    CommandLabelsDistinct();
    hide CommandBuildHouseToJson, CommandBuildHouseFromJson, CommandCastSpellGodToJson, CommandCastSpellGodFromJson, CommandCastSpellGodEncodable, CommandCastSpellGodMultiToJson, CommandCastSpellGodMultiFromJson, CommandProduceSquadToJson, CommandProduceSquadFromJson, CommandProduceSquadOnBarrierToJson, CommandProduceSquadOnBarrierFromJson, CommandCastSpellEntityToJson, CommandCastSpellEntityFromJson, CommandCastSpellEntityEncodable, CommandBarrierGateToggleToJson, CommandBarrierGateToggleFromJson, CommandBarrierBuildToJson, CommandBarrierBuildFromJson, CommandBarrierRepairToJson, CommandBarrierRepairFromJson, CommandBarrierCancelRepairToJson, CommandBarrierCancelRepairFromJson, CommandRepairBuildingToJson, CommandRepairBuildingFromJson, CommandCancelRepairBuildingToJson, CommandCancelRepairBuildingFromJson, CommandGroupAttackToJson, CommandGroupAttackFromJson, CommandGroupEnterWallToJson, CommandGroupEnterWallFromJson, CommandGroupExitWallToJson, CommandGroupExitWallFromJson, CommandGroupGotoToJson, CommandGroupGotoFromJson, CommandGroupHoldPositionToJson, CommandGroupHoldPositionFromJson, CommandGroupStopJobToJson, CommandGroupStopJobFromJson, CommandModeChangeToJson, CommandModeChangeFromJson, CommandPowerSlotBuildToJson, CommandPowerSlotBuildFromJson, CommandTokenSlotBuildToJson, CommandTokenSlotBuildFromJson, CommandGroupKillEntityToJson, CommandGroupKillEntityFromJson, CommandGroupSacrificeToJson, CommandGroupSacrificeFromJson, CommandPortalDefineExitPointToJson, CommandPortalDefineExitPointFromJson, CommandPortalRemoveExitPointToJson, CommandPortalRemoveExitPointFromJson, CommandTunnelMakeExitPointToJson, CommandTunnelMakeExitPointFromJson, CommandPingToJson, CommandPingFromJson, CommandWhisperToMasterToJson, CommandWhisperToMasterFromJson, Select, Items, LastIndexOf, Distinct;
    match v
    case CastSpellGodMulti(p) =>
      CommandCastSpellGodMultiRoundTrip(p);
      if CommandCastSpellGodMultiToJson(p).Ok? {
        SelectEncoded(CommandLabels, 3, CommandCastSpellGodMultiToJson(p).value);
      }
    case ProduceSquad(p) =>
      CommandProduceSquadRoundTrip(p);
      if CommandProduceSquadToJson(p).Ok? {
        SelectEncoded(CommandLabels, 4, CommandProduceSquadToJson(p).value);
      }
    case ProduceSquadOnBarrier(p) =>
      CommandProduceSquadOnBarrierRoundTrip(p);
      if CommandProduceSquadOnBarrierToJson(p).Ok? {
        SelectEncoded(CommandLabels, 5, CommandProduceSquadOnBarrierToJson(p).value);
      }
    case _ => assert false;
  }

  /** The round trip for cases 6 to 8, proved apart to keep each proof small. */
  lemma CommandRoundTripPart3(v: Command, prior: Command)
    requires 6 <= CommandIndex(v) <= 8
    ensures hide *; CommandToJson(v).Ok? <==> CommandEncodable(v)
    ensures hide *; CommandEncodable(v) ==> CommandFromJson(CommandToJson(v).value, prior) == Ok(v)
  {
    CommandLabelsDistinct();
    hide CommandBuildHouseToJson, CommandBuildHouseFromJson, CommandCastSpellGodToJson, CommandCastSpellGodFromJson, CommandCastSpellGodEncodable, CommandCastSpellGodMultiToJson, CommandCastSpellGodMultiFromJson, CommandProduceSquadToJson, CommandProduceSquadFromJson, CommandProduceSquadOnBarrierToJson, CommandProduceSquadOnBarrierFromJson, CommandCastSpellEntityToJson, CommandCastSpellEntityFromJson, CommandCastSpellEntityEncodable, CommandBarrierGateToggleToJson, CommandBarrierGateToggleFromJson, CommandBarrierBuildToJson, CommandBarrierBuildFromJson, CommandBarrierRepairToJson, CommandBarrierRepairFromJson, CommandBarrierCancelRepairToJson, CommandBarrierCancelRepairFromJson, CommandRepairBuildingToJson, CommandRepairBuildingFromJson, CommandCancelRepairBuildingToJson, CommandCancelRepairBuildingFromJson, CommandGroupAttackToJson, CommandGroupAttackFromJson, CommandGroupEnterWallToJson, CommandGroupEnterWallFromJson, CommandGroupExitWallToJson, CommandGroupExitWallFromJson, CommandGroupGotoToJson, CommandGroupGotoFromJson, CommandGroupHoldPositionToJson, CommandGroupHoldPositionFromJson, CommandGroupStopJobToJson, CommandGroupStopJobFromJson, CommandModeChangeToJson, CommandModeChangeFromJson, CommandPowerSlotBuildToJson, CommandPowerSlotBuildFromJson, CommandTokenSlotBuildToJson, CommandTokenSlotBuildFromJson, CommandGroupKillEntityToJson, CommandGroupKillEntityFromJson, CommandGroupSacrificeToJson, CommandGroupSacrificeFromJson, CommandPortalDefineExitPointToJson, CommandPortalDefineExitPointFromJson, CommandPortalRemoveExitPointToJson, CommandPortalRemoveExitPointFromJson, CommandTunnelMakeExitPointToJson, CommandTunnelMakeExitPointFromJson, CommandPingToJson, CommandPingFromJson, CommandWhisperToMasterToJson, CommandWhisperToMasterFromJson, Select, Items, LastIndexOf, Distinct;
    match v
    case CastSpellEntity(p) =>
      CommandCastSpellEntityRoundTrip(p);
      if CommandCastSpellEntityToJson(p).Ok? {
        SelectEncoded(CommandLabels, 6, CommandCastSpellEntityToJson(p).value);
      }
    case BarrierGateToggle(p) =>
      CommandBarrierGateToggleRoundTrip(p);
      if CommandBarrierGateToggleToJson(p).Ok? {
        SelectEncoded(CommandLabels, 7, CommandBarrierGateToggleToJson(p).value);
      }
    case BarrierBuild(p) =>
      CommandBarrierBuildRoundTrip(p);
      if CommandBarrierBuildToJson(p).Ok? {
        SelectEncoded(CommandLabels, 8, CommandBarrierBuildToJson(p).value);
      }
    case _ => assert false;
  }

  /** The round trip for cases 9 to 11, proved apart to keep each proof small. */
  lemma CommandRoundTripPart4(v: Command, prior: Command)
    requires 9 <= CommandIndex(v) <= 11
    ensures hide *; CommandToJson(v).Ok? <==> CommandEncodable(v)
    ensures hide *; CommandEncodable(v) ==> CommandFromJson(CommandToJson(v).value, prior) == Ok(v)
  {
    CommandLabelsDistinct();
    hide CommandBuildHouseToJson, CommandBuildHouseFromJson, CommandCastSpellGodToJson, CommandCastSpellGodFromJson, CommandCastSpellGodEncodable, CommandCastSpellGodMultiToJson, CommandCastSpellGodMultiFromJson, CommandProduceSquadToJson, CommandProduceSquadFromJson, CommandProduceSquadOnBarrierToJson, CommandProduceSquadOnBarrierFromJson, CommandCastSpellEntityToJson, CommandCastSpellEntityFromJson, CommandCastSpellEntityEncodable, CommandBarrierGateToggleToJson, CommandBarrierGateToggleFromJson, CommandBarrierBuildToJson, CommandBarrierBuildFromJson, CommandBarrierRepairToJson, CommandBarrierRepairFromJson, CommandBarrierCancelRepairToJson, CommandBarrierCancelRepairFromJson, CommandRepairBuildingToJson, CommandRepairBuildingFromJson, CommandCancelRepairBuildingToJson, CommandCancelRepairBuildingFromJson, CommandGroupAttackToJson, CommandGroupAttackFromJson, CommandGroupEnterWallToJson, CommandGroupEnterWallFromJson, CommandGroupExitWallToJson, CommandGroupExitWallFromJson, CommandGroupGotoToJson, CommandGroupGotoFromJson, CommandGroupHoldPositionToJson, CommandGroupHoldPositionFromJson, CommandGroupStopJobToJson, CommandGroupStopJobFromJson, CommandModeChangeToJson, CommandModeChangeFromJson, CommandPowerSlotBuildToJson, CommandPowerSlotBuildFromJson, CommandTokenSlotBuildToJson, CommandTokenSlotBuildFromJson, CommandGroupKillEntityToJson, CommandGroupKillEntityFromJson, CommandGroupSacrificeToJson, CommandGroupSacrificeFromJson, CommandPortalDefineExitPointToJson, CommandPortalDefineExitPointFromJson, CommandPortalRemoveExitPointToJson, CommandPortalRemoveExitPointFromJson, CommandTunnelMakeExitPointToJson, CommandTunnelMakeExitPointFromJson, CommandPingToJson, CommandPingFromJson, CommandWhisperToMasterToJson, CommandWhisperToMasterFromJson, Select, Items, LastIndexOf, Distinct;
    match v
    case BarrierRepair(p) =>
      CommandBarrierRepairRoundTrip(p);
      if CommandBarrierRepairToJson(p).Ok? {
        SelectEncoded(CommandLabels, 9, CommandBarrierRepairToJson(p).value);
      }
    case BarrierCancelRepair(p) =>
      CommandBarrierCancelRepairRoundTrip(p);
      if CommandBarrierCancelRepairToJson(p).Ok? {
        SelectEncoded(CommandLabels, 10, CommandBarrierCancelRepairToJson(p).value);
      }
    case RepairBuilding(p) =>
      CommandRepairBuildingRoundTrip(p);
      if CommandRepairBuildingToJson(p).Ok? {
        SelectEncoded(CommandLabels, 11, CommandRepairBuildingToJson(p).value);
      }
    case _ => assert false;
  }

  /** The round trip for cases 12 to 14, proved apart to keep each proof small. */
  lemma CommandRoundTripPart5(v: Command, prior: Command)
    requires 12 <= CommandIndex(v) <= 14
    ensures hide *; CommandToJson(v).Ok? <==> CommandEncodable(v)
    ensures hide *; CommandEncodable(v) ==> CommandFromJson(CommandToJson(v).value, prior) == Ok(v)
  {
    CommandLabelsDistinct();
    hide CommandBuildHouseToJson, CommandBuildHouseFromJson, CommandCastSpellGodToJson, CommandCastSpellGodFromJson, CommandCastSpellGodEncodable, CommandCastSpellGodMultiToJson, CommandCastSpellGodMultiFromJson, CommandProduceSquadToJson, CommandProduceSquadFromJson, CommandProduceSquadOnBarrierToJson, CommandProduceSquadOnBarrierFromJson, CommandCastSpellEntityToJson, CommandCastSpellEntityFromJson, CommandCastSpellEntityEncodable, CommandBarrierGateToggleToJson, CommandBarrierGateToggleFromJson, CommandBarrierBuildToJson, CommandBarrierBuildFromJson, CommandBarrierRepairToJson, CommandBarrierRepairFromJson, CommandBarrierCancelRepairToJson, CommandBarrierCancelRepairFromJson, CommandRepairBuildingToJson, CommandRepairBuildingFromJson, CommandCancelRepairBuildingToJson, CommandCancelRepairBuildingFromJson, CommandGroupAttackToJson, CommandGroupAttackFromJson, CommandGroupEnterWallToJson, CommandGroupEnterWallFromJson, CommandGroupExitWallToJson, CommandGroupExitWallFromJson, CommandGroupGotoToJson, CommandGroupGotoFromJson, CommandGroupHoldPositionToJson, CommandGroupHoldPositionFromJson, CommandGroupStopJobToJson, CommandGroupStopJobFromJson, CommandModeChangeToJson, CommandModeChangeFromJson, CommandPowerSlotBuildToJson, CommandPowerSlotBuildFromJson, CommandTokenSlotBuildToJson, CommandTokenSlotBuildFromJson, CommandGroupKillEntityToJson, CommandGroupKillEntityFromJson, CommandGroupSacrificeToJson, CommandGroupSacrificeFromJson, CommandPortalDefineExitPointToJson, CommandPortalDefineExitPointFromJson, CommandPortalRemoveExitPointToJson, CommandPortalRemoveExitPointFromJson, CommandTunnelMakeExitPointToJson, CommandTunnelMakeExitPointFromJson, CommandPingToJson, CommandPingFromJson, CommandWhisperToMasterToJson, CommandWhisperToMasterFromJson, Select, Items, LastIndexOf, Distinct;
    match v
    case CancelRepairBuilding(p) =>
      CommandCancelRepairBuildingRoundTrip(p);
      if CommandCancelRepairBuildingToJson(p).Ok? {
        SelectEncoded(CommandLabels, 12, CommandCancelRepairBuildingToJson(p).value);
      }
    case GroupAttack(p) =>
      CommandGroupAttackRoundTrip(p);
      if CommandGroupAttackToJson(p).Ok? {
        SelectEncoded(CommandLabels, 13, CommandGroupAttackToJson(p).value);
      }
    case GroupEnterWall(p) =>
      CommandGroupEnterWallRoundTrip(p);
      if CommandGroupEnterWallToJson(p).Ok? {
        SelectEncoded(CommandLabels, 14, CommandGroupEnterWallToJson(p).value);
      }
    case _ => assert false;
  }

  /** The round trip for cases 15 to 17, proved apart to keep each proof small. */
  lemma CommandRoundTripPart6(v: Command, prior: Command)
    requires 15 <= CommandIndex(v) <= 17
    ensures hide *; CommandToJson(v).Ok? <==> CommandEncodable(v)
    ensures hide *; CommandEncodable(v) ==> CommandFromJson(CommandToJson(v).value, prior) == Ok(v)
  {
    CommandLabelsDistinct();
    hide CommandBuildHouseToJson, CommandBuildHouseFromJson, CommandCastSpellGodToJson, CommandCastSpellGodFromJson, CommandCastSpellGodEncodable, CommandCastSpellGodMultiToJson, CommandCastSpellGodMultiFromJson, CommandProduceSquadToJson, CommandProduceSquadFromJson, CommandProduceSquadOnBarrierToJson, CommandProduceSquadOnBarrierFromJson, CommandCastSpellEntityToJson, CommandCastSpellEntityFromJson, CommandCastSpellEntityEncodable, CommandBarrierGateToggleToJson, CommandBarrierGateToggleFromJson, CommandBarrierBuildToJson, CommandBarrierBuildFromJson, CommandBarrierRepairToJson, CommandBarrierRepairFromJson, CommandBarrierCancelRepairToJson, CommandBarrierCancelRepairFromJson, CommandRepairBuildingToJson, CommandRepairBuildingFromJson, CommandCancelRepairBuildingToJson, CommandCancelRepairBuildingFromJson, CommandGroupAttackToJson, CommandGroupAttackFromJson, CommandGroupEnterWallToJson, CommandGroupEnterWallFromJson, CommandGroupExitWallToJson, CommandGroupExitWallFromJson, CommandGroupGotoToJson, CommandGroupGotoFromJson, CommandGroupHoldPositionToJson, CommandGroupHoldPositionFromJson, CommandGroupStopJobToJson, CommandGroupStopJobFromJson, CommandModeChangeToJson, CommandModeChangeFromJson, CommandPowerSlotBuildToJson, CommandPowerSlotBuildFromJson, CommandTokenSlotBuildToJson, CommandTokenSlotBuildFromJson, CommandGroupKillEntityToJson, CommandGroupKillEntityFromJson, CommandGroupSacrificeToJson, CommandGroupSacrificeFromJson, CommandPortalDefineExitPointToJson, CommandPortalDefineExitPointFromJson, CommandPortalRemoveExitPointToJson, CommandPortalRemoveExitPointFromJson, CommandTunnelMakeExitPointToJson, CommandTunnelMakeExitPointFromJson, CommandPingToJson, CommandPingFromJson, CommandWhisperToMasterToJson, CommandWhisperToMasterFromJson, Select, Items, LastIndexOf, Distinct;
    match v
    case GroupExitWall(p) =>
      CommandGroupExitWallRoundTrip(p);
      if CommandGroupExitWallToJson(p).Ok? {
        SelectEncoded(CommandLabels, 15, CommandGroupExitWallToJson(p).value);
      }
    case GroupGoto(p) =>
      CommandGroupGotoRoundTrip(p);
      if CommandGroupGotoToJson(p).Ok? {
        SelectEncoded(CommandLabels, 16, CommandGroupGotoToJson(p).value);
      }
    case GroupHoldPosition(p) =>
      CommandGroupHoldPositionRoundTrip(p);
      if CommandGroupHoldPositionToJson(p).Ok? {
        SelectEncoded(CommandLabels, 17, CommandGroupHoldPositionToJson(p).value);
      }
    case _ => assert false;
  }

  /** The round trip for cases 18 to 20, proved apart to keep each proof small. */
  lemma CommandRoundTripPart7(v: Command, prior: Command)
    requires 18 <= CommandIndex(v) <= 20
    ensures hide *; CommandToJson(v).Ok? <==> CommandEncodable(v)
    ensures hide *; CommandEncodable(v) ==> CommandFromJson(CommandToJson(v).value, prior) == Ok(v)
  {
    CommandLabelsDistinct();
    hide CommandBuildHouseToJson, CommandBuildHouseFromJson, CommandCastSpellGodToJson, CommandCastSpellGodFromJson, CommandCastSpellGodEncodable, CommandCastSpellGodMultiToJson, CommandCastSpellGodMultiFromJson, CommandProduceSquadToJson, CommandProduceSquadFromJson, CommandProduceSquadOnBarrierToJson, CommandProduceSquadOnBarrierFromJson, CommandCastSpellEntityToJson, CommandCastSpellEntityFromJson, CommandCastSpellEntityEncodable, CommandBarrierGateToggleToJson, CommandBarrierGateToggleFromJson, CommandBarrierBuildToJson, CommandBarrierBuildFromJson, CommandBarrierRepairToJson, CommandBarrierRepairFromJson, CommandBarrierCancelRepairToJson, CommandBarrierCancelRepairFromJson, CommandRepairBuildingToJson, CommandRepairBuildingFromJson, CommandCancelRepairBuildingToJson, CommandCancelRepairBuildingFromJson, CommandGroupAttackToJson, CommandGroupAttackFromJson, CommandGroupEnterWallToJson, CommandGroupEnterWallFromJson, CommandGroupExitWallToJson, CommandGroupExitWallFromJson, CommandGroupGotoToJson, CommandGroupGotoFromJson, CommandGroupHoldPositionToJson, CommandGroupHoldPositionFromJson, CommandGroupStopJobToJson, CommandGroupStopJobFromJson, CommandModeChangeToJson, CommandModeChangeFromJson, CommandPowerSlotBuildToJson, CommandPowerSlotBuildFromJson, CommandTokenSlotBuildToJson, CommandTokenSlotBuildFromJson, CommandGroupKillEntityToJson, CommandGroupKillEntityFromJson, CommandGroupSacrificeToJson, CommandGroupSacrificeFromJson, CommandPortalDefineExitPointToJson, CommandPortalDefineExitPointFromJson, CommandPortalRemoveExitPointToJson, CommandPortalRemoveExitPointFromJson, CommandTunnelMakeExitPointToJson, CommandTunnelMakeExitPointFromJson, CommandPingToJson, CommandPingFromJson, CommandWhisperToMasterToJson, CommandWhisperToMasterFromJson, Select, Items, LastIndexOf, Distinct;
    match v
    case GroupStopJob(p) =>
      CommandGroupStopJobRoundTrip(p);
      if CommandGroupStopJobToJson(p).Ok? {
        SelectEncoded(CommandLabels, 18, CommandGroupStopJobToJson(p).value);
      }
    case ModeChange(p) =>
      CommandModeChangeRoundTrip(p);
      if CommandModeChangeToJson(p).Ok? {
        SelectEncoded(CommandLabels, 19, CommandModeChangeToJson(p).value);
      }
    case PowerSlotBuild(p) =>
      CommandPowerSlotBuildRoundTrip(p);
      if CommandPowerSlotBuildToJson(p).Ok? {
        SelectEncoded(CommandLabels, 20, CommandPowerSlotBuildToJson(p).value);
      }
    case _ => assert false;
  }

  /** The round trip for cases 21 to 23, proved apart to keep each proof small. */
  lemma CommandRoundTripPart8(v: Command, prior: Command)
    requires 21 <= CommandIndex(v) <= 23
    ensures hide *; CommandToJson(v).Ok? <==> CommandEncodable(v)
    ensures hide *; CommandEncodable(v) ==> CommandFromJson(CommandToJson(v).value, prior) == Ok(v)
  {
    CommandLabelsDistinct();
    hide CommandBuildHouseToJson, CommandBuildHouseFromJson, CommandCastSpellGodToJson, CommandCastSpellGodFromJson, CommandCastSpellGodEncodable, CommandCastSpellGodMultiToJson, CommandCastSpellGodMultiFromJson, CommandProduceSquadToJson, CommandProduceSquadFromJson, CommandProduceSquadOnBarrierToJson, CommandProduceSquadOnBarrierFromJson, CommandCastSpellEntityToJson, CommandCastSpellEntityFromJson, CommandCastSpellEntityEncodable, CommandBarrierGateToggleToJson, CommandBarrierGateToggleFromJson, CommandBarrierBuildToJson, CommandBarrierBuildFromJson, CommandBarrierRepairToJson, CommandBarrierRepairFromJson, CommandBarrierCancelRepairToJson, CommandBarrierCancelRepairFromJson, CommandRepairBuildingToJson, CommandRepairBuildingFromJson, CommandCancelRepairBuildingToJson, CommandCancelRepairBuildingFromJson, CommandGroupAttackToJson, CommandGroupAttackFromJson, CommandGroupEnterWallToJson, CommandGroupEnterWallFromJson, CommandGroupExitWallToJson, CommandGroupExitWallFromJson, CommandGroupGotoToJson, CommandGroupGotoFromJson, CommandGroupHoldPositionToJson, CommandGroupHoldPositionFromJson, CommandGroupStopJobToJson, CommandGroupStopJobFromJson, CommandModeChangeToJson, CommandModeChangeFromJson, CommandPowerSlotBuildToJson, CommandPowerSlotBuildFromJson, CommandTokenSlotBuildToJson, CommandTokenSlotBuildFromJson, CommandGroupKillEntityToJson, CommandGroupKillEntityFromJson, CommandGroupSacrificeToJson, CommandGroupSacrificeFromJson, CommandPortalDefineExitPointToJson, CommandPortalDefineExitPointFromJson, CommandPortalRemoveExitPointToJson, CommandPortalRemoveExitPointFromJson, CommandTunnelMakeExitPointToJson, CommandTunnelMakeExitPointFromJson, CommandPingToJson, CommandPingFromJson, CommandWhisperToMasterToJson, CommandWhisperToMasterFromJson, Select, Items, LastIndexOf, Distinct;
    match v
    case TokenSlotBuild(p) =>
      CommandTokenSlotBuildRoundTrip(p);
      if CommandTokenSlotBuildToJson(p).Ok? {
        SelectEncoded(CommandLabels, 21, CommandTokenSlotBuildToJson(p).value);
      }
    case GroupKillEntity(p) =>
      CommandGroupKillEntityRoundTrip(p);
      if CommandGroupKillEntityToJson(p).Ok? {
        SelectEncoded(CommandLabels, 22, CommandGroupKillEntityToJson(p).value);
      }
    case GroupSacrifice(p) =>
      CommandGroupSacrificeRoundTrip(p);
      if CommandGroupSacrificeToJson(p).Ok? {
        SelectEncoded(CommandLabels, 23, CommandGroupSacrificeToJson(p).value);
      }
    case _ => assert false;
  }

  /** The round trip for cases 24 to 26, proved apart to keep each proof small. */
  lemma CommandRoundTripPart9(v: Command, prior: Command)
    requires 24 <= CommandIndex(v) <= 26
    ensures hide *; CommandToJson(v).Ok? <==> CommandEncodable(v)
    ensures hide *; CommandEncodable(v) ==> CommandFromJson(CommandToJson(v).value, prior) == Ok(v)
  {
    CommandLabelsDistinct();
    hide CommandBuildHouseToJson, CommandBuildHouseFromJson, CommandCastSpellGodToJson, CommandCastSpellGodFromJson, CommandCastSpellGodEncodable, CommandCastSpellGodMultiToJson, CommandCastSpellGodMultiFromJson, CommandProduceSquadToJson, CommandProduceSquadFromJson, CommandProduceSquadOnBarrierToJson, CommandProduceSquadOnBarrierFromJson, CommandCastSpellEntityToJson, CommandCastSpellEntityFromJson, CommandCastSpellEntityEncodable, CommandBarrierGateToggleToJson, CommandBarrierGateToggleFromJson, CommandBarrierBuildToJson, CommandBarrierBuildFromJson, CommandBarrierRepairToJson, CommandBarrierRepairFromJson, CommandBarrierCancelRepairToJson, CommandBarrierCancelRepairFromJson, CommandRepairBuildingToJson, CommandRepairBuildingFromJson, CommandCancelRepairBuildingToJson, CommandCancelRepairBuildingFromJson, CommandGroupAttackToJson, CommandGroupAttackFromJson, CommandGroupEnterWallToJson, CommandGroupEnterWallFromJson, CommandGroupExitWallToJson, CommandGroupExitWallFromJson, CommandGroupGotoToJson, CommandGroupGotoFromJson, CommandGroupHoldPositionToJson, CommandGroupHoldPositionFromJson, CommandGroupStopJobToJson, CommandGroupStopJobFromJson, CommandModeChangeToJson, CommandModeChangeFromJson, CommandPowerSlotBuildToJson, CommandPowerSlotBuildFromJson, CommandTokenSlotBuildToJson, CommandTokenSlotBuildFromJson, CommandGroupKillEntityToJson, CommandGroupKillEntityFromJson, CommandGroupSacrificeToJson, CommandGroupSacrificeFromJson, CommandPortalDefineExitPointToJson, CommandPortalDefineExitPointFromJson, CommandPortalRemoveExitPointToJson, CommandPortalRemoveExitPointFromJson, CommandTunnelMakeExitPointToJson, CommandTunnelMakeExitPointFromJson, CommandPingToJson, CommandPingFromJson, CommandWhisperToMasterToJson, CommandWhisperToMasterFromJson, Select, Items, LastIndexOf, Distinct;
    match v
    case PortalDefineExitPoint(p) =>
      CommandPortalDefineExitPointRoundTrip(p);
      if CommandPortalDefineExitPointToJson(p).Ok? {
        SelectEncoded(CommandLabels, 24, CommandPortalDefineExitPointToJson(p).value);
      }
    case PortalRemoveExitPoint(p) =>
      CommandPortalRemoveExitPointRoundTrip(p);
      if CommandPortalRemoveExitPointToJson(p).Ok? {
        SelectEncoded(CommandLabels, 25, CommandPortalRemoveExitPointToJson(p).value);
      }
    case TunnelMakeExitPoint(p) =>
      CommandTunnelMakeExitPointRoundTrip(p);
      if CommandTunnelMakeExitPointToJson(p).Ok? {
        SelectEncoded(CommandLabels, 26, CommandTunnelMakeExitPointToJson(p).value);
      }
    case _ => assert false;
  }

  /** The round trip for cases 27 to 29, proved apart to keep each proof small. */
  lemma CommandRoundTripPart10(v: Command, prior: Command)
    requires 27 <= CommandIndex(v) <= 29
    ensures hide *; CommandToJson(v).Ok? <==> CommandEncodable(v)
    ensures hide *; CommandEncodable(v) ==> CommandFromJson(CommandToJson(v).value, prior) == Ok(v)
  {
    CommandLabelsDistinct();
    hide CommandBuildHouseToJson, CommandBuildHouseFromJson, CommandCastSpellGodToJson, CommandCastSpellGodFromJson, CommandCastSpellGodEncodable, CommandCastSpellGodMultiToJson, CommandCastSpellGodMultiFromJson, CommandProduceSquadToJson, CommandProduceSquadFromJson, CommandProduceSquadOnBarrierToJson, CommandProduceSquadOnBarrierFromJson, CommandCastSpellEntityToJson, CommandCastSpellEntityFromJson, CommandCastSpellEntityEncodable, CommandBarrierGateToggleToJson, CommandBarrierGateToggleFromJson, CommandBarrierBuildToJson, CommandBarrierBuildFromJson, CommandBarrierRepairToJson, CommandBarrierRepairFromJson, CommandBarrierCancelRepairToJson, CommandBarrierCancelRepairFromJson, CommandRepairBuildingToJson, CommandRepairBuildingFromJson, CommandCancelRepairBuildingToJson, CommandCancelRepairBuildingFromJson, CommandGroupAttackToJson, CommandGroupAttackFromJson, CommandGroupEnterWallToJson, CommandGroupEnterWallFromJson, CommandGroupExitWallToJson, CommandGroupExitWallFromJson, CommandGroupGotoToJson, CommandGroupGotoFromJson, CommandGroupHoldPositionToJson, CommandGroupHoldPositionFromJson, CommandGroupStopJobToJson, CommandGroupStopJobFromJson, CommandModeChangeToJson, CommandModeChangeFromJson, CommandPowerSlotBuildToJson, CommandPowerSlotBuildFromJson, CommandTokenSlotBuildToJson, CommandTokenSlotBuildFromJson, CommandGroupKillEntityToJson, CommandGroupKillEntityFromJson, CommandGroupSacrificeToJson, CommandGroupSacrificeFromJson, CommandPortalDefineExitPointToJson, CommandPortalDefineExitPointFromJson, CommandPortalRemoveExitPointToJson, CommandPortalRemoveExitPointFromJson, CommandTunnelMakeExitPointToJson, CommandTunnelMakeExitPointFromJson, CommandPingToJson, CommandPingFromJson, CommandWhisperToMasterToJson, CommandWhisperToMasterFromJson, Select, Items, LastIndexOf, Distinct;
    match v
    case Ping(p) =>
      CommandPingRoundTrip(p);
      if CommandPingToJson(p).Ok? {
        SelectEncoded(CommandLabels, 27, CommandPingToJson(p).value);
      }
    case Surrender => SelectEncoded(CommandLabels, 28, MarkerJson("CommandSurrender"));
    case WhisperToMaster(p) =>
      CommandWhisperToMasterRoundTrip(p);
      if CommandWhisperToMasterToJson(p).Ok? {
        SelectEncoded(CommandLabels, 29, CommandWhisperToMasterToJson(p).value);
      }
    case _ => assert false;
  }

  lemma CommandRoundTrip(v: Command, prior: Command)
    ensures hide *; CommandToJson(v).Ok? <==> CommandEncodable(v)
    ensures hide *; CommandEncodable(v) ==> CommandFromJson(CommandToJson(v).value, prior) == Ok(v)
  {
    if CommandIndex(v) <= 2 {
      CommandRoundTripPart1(v, prior);
    } else if CommandIndex(v) <= 5 {
      CommandRoundTripPart2(v, prior);
    } else if CommandIndex(v) <= 8 {
      CommandRoundTripPart3(v, prior);
    } else if CommandIndex(v) <= 11 {
      CommandRoundTripPart4(v, prior);
    } else if CommandIndex(v) <= 14 {
      CommandRoundTripPart5(v, prior);
    } else if CommandIndex(v) <= 17 {
      CommandRoundTripPart6(v, prior);
    } else if CommandIndex(v) <= 20 {
      CommandRoundTripPart7(v, prior);
    } else if CommandIndex(v) <= 23 {
      CommandRoundTripPart8(v, prior);
    } else if CommandIndex(v) <= 26 {
      CommandRoundTripPart9(v, prior);
    } else {
      CommandRoundTripPart10(v, prior);
    }
  }

  // PlayerCommand
  datatype PlayerCommand = PlayerCommand(player: EntityId, command: Command)

  const DefaultPlayerCommand: PlayerCommand := PlayerCommand(0, Command.Invalid)

  predicate PlayerCommandEncodable(v: PlayerCommand)
  {
    hide CommandEncodable;
    CommandEncodable(v.command)
  }

  function PlayerCommandToJson(v: PlayerCommand): Outcome<Json>
  {
    hide CommandToJson;
    var j1 := Put(Null, "player", Int(v.player));
    var commandJson :- CommandToJson(v.command);
    var j2 := Put(j1, "command", commandJson);
    Ok(j2)
  }

  function PlayerCommandFromJson(j: Json, prior: PlayerCommand): Outcome<PlayerCommand>
  {
    hide CommandFromJson;
    var playerJson :- At(j, "player");
    var player :- U32FromJson(playerJson);
    var commandJson :- At(j, "command");
    var command :- CommandFromJson(commandJson, prior.command);
    Ok(PlayerCommand(player, command))
  }

  function GetPlayerCommand(j: Json): Outcome<PlayerCommand>
  {
    PlayerCommandFromJson(j, DefaultPlayerCommand)
  }

  /** Each key of the encoded object holds its field, as written. */
  lemma PlayerCommandFields(v: PlayerCommand)
    requires PlayerCommandToJson(v).Ok?
    ensures hide *; var j := PlayerCommandToJson(v).value;
      && j.Obj?
      && At(j, "player") == Ok(Int(v.player))
      && CommandToJson(v.command).Ok?
      && At(j, "command") == Ok(CommandToJson(v.command).value)
  {
    hide CommandToJson, Put, PutOptional, Get, At, OptionalAt, SeqToJson, IntegerOf;
  }

  lemma PlayerCommandRoundTrip(v: PlayerCommand)
    ensures hide *; PlayerCommandToJson(v).Ok? <==> PlayerCommandEncodable(v)
    ensures hide *; PlayerCommandToJson(v).Ok? ==> PlayerCommandToJson(v).value.Obj?
    ensures hide *; PlayerCommandEncodable(v) ==> GetPlayerCommand(PlayerCommandToJson(v).value) == Ok(v)
  {
    hide CommandToJson, CommandFromJson, CommandEncodable, Put, PutOptional, Get, At, OptionalAt, EncodeEach, DecodeEach, SeqFromJson, FixedFromJson, IntegerOf, U8FromJson, U16FromJson, U32FromJson, U64FromJson, EnumFromJson, FloatFromJson, BoolFromJson, StringFromJson;
    CommandRoundTrip(v.command, Command.Invalid);
    if PlayerCommandToJson(v).Ok? && PlayerCommandEncodable(v) {
      PlayerCommandFields(v);
      var j := PlayerCommandToJson(v).value;
      hide PlayerCommandToJson;
      assert U32FromJson(Int(v.player)) == Ok(v.player);
      assert GetPlayerCommand(j) == Ok(v);
    }
  }

  /** A vector of `PlayerCommand` reads back as written. */
  lemma PlayerCommandSeqRoundTrip(s: seq<PlayerCommand>)
    ensures hide *; SeqToJson(s, PlayerCommandToJson).Ok? <==> forall i :: 0 <= i < |s| ==> PlayerCommandEncodable(s[i])
    ensures hide *; (forall i :: 0 <= i < |s| ==> PlayerCommandEncodable(s[i])) ==> SeqFromJson(SeqToJson(s, PlayerCommandToJson).value, GetPlayerCommand) == Ok(s)
  {
    hide PlayerCommandToJson, PlayerCommandFromJson, PlayerCommandEncodable;
    forall i | 0 <= i < |s|
      ensures PlayerCommandToJson(s[i]).Ok? <==> PlayerCommandEncodable(s[i])
      ensures PlayerCommandEncodable(s[i]) ==> GetPlayerCommand(PlayerCommandToJson(s[i]).value) == Ok(s[i])
    {
      PlayerCommandRoundTrip(s[i]);
    }
    EncodeEachOk(s, PlayerCommandToJson);
    if forall i :: 0 <= i < |s| ==> PlayerCommandEncodable(s[i]) {
      SeqRoundTrip(s, PlayerCommandToJson, GetPlayerCommand);
    }
  }

  // CommandRejectionReasonCardRejected
  datatype CommandRejectionReasonCardRejected = CommandRejectionReasonCardRejected(reason: WhyCanNotPlayCardThere, failedCardConditions: seq<u32>)

  const DefaultCommandRejectionReasonCardRejected: CommandRejectionReasonCardRejected := CommandRejectionReasonCardRejected(0, [])

  function CommandRejectionReasonCardRejectedToJson(v: CommandRejectionReasonCardRejected): Outcome<Json>
  {
    var j1 := Put(Null, "reason", Int(v.reason));
    var failedCardConditionsJson :- SeqToJson(v.failedCardConditions, U32ToJson);
    var j2 := Put(j1, "failed_card_conditions", failedCardConditionsJson);
    Ok(j2)
  }

  function CommandRejectionReasonCardRejectedFromJson(j: Json, prior: CommandRejectionReasonCardRejected): Outcome<CommandRejectionReasonCardRejected>
  {
    var reasonJson :- At(j, "reason");
    var reason :- EnumFromJson(reasonJson);
    var failedCardConditionsJson :- At(j, "failed_card_conditions");
    var failedCardConditions :- SeqFromJson(failedCardConditionsJson, U32FromJson);
    Ok(CommandRejectionReasonCardRejected(reason, failedCardConditions))
  }

  function GetCommandRejectionReasonCardRejected(j: Json): Outcome<CommandRejectionReasonCardRejected>
  {
    CommandRejectionReasonCardRejectedFromJson(j, DefaultCommandRejectionReasonCardRejected)
  }

  lemma CommandRejectionReasonCardRejectedRoundTrip(v: CommandRejectionReasonCardRejected)
    ensures CommandRejectionReasonCardRejectedToJson(v).Ok? && CommandRejectionReasonCardRejectedToJson(v).value.Obj?
    ensures GetCommandRejectionReasonCardRejected(CommandRejectionReasonCardRejectedToJson(v).value) == Ok(v)
  {
    hide Put, PutOptional, Get, At, OptionalAt, EncodeEach, DecodeEach, SeqFromJson, FixedFromJson, IntegerOf, U8FromJson, U16FromJson, U32FromJson, U64FromJson, EnumFromJson, FloatFromJson, BoolFromJson, StringFromJson;
    SeqRoundTrip(v.failedCardConditions, U32ToJson, U32FromJson);
  }

  // CommandRejectionReasonNotEnoughPower
  datatype CommandRejectionReasonNotEnoughPower = CommandRejectionReasonNotEnoughPower(playerPower: real, required: u16)

  const DefaultCommandRejectionReasonNotEnoughPower: CommandRejectionReasonNotEnoughPower := CommandRejectionReasonNotEnoughPower(0.0, 0)

  function CommandRejectionReasonNotEnoughPowerToJson(v: CommandRejectionReasonNotEnoughPower): Outcome<Json>
  {
    var j1 := Put(Null, "player_power", Float(v.playerPower));
    var j2 := Put(j1, "required", Int(v.required));
    Ok(j2)
  }

  function CommandRejectionReasonNotEnoughPowerFromJson(j: Json, prior: CommandRejectionReasonNotEnoughPower): Outcome<CommandRejectionReasonNotEnoughPower>
  {
    var playerPowerJson :- At(j, "player_power");
    var playerPower :- FloatFromJson(playerPowerJson);
    var requiredJson :- At(j, "required");
    var required :- U16FromJson(requiredJson);
    Ok(CommandRejectionReasonNotEnoughPower(playerPower, required))
  }

  function GetCommandRejectionReasonNotEnoughPower(j: Json): Outcome<CommandRejectionReasonNotEnoughPower>
  {
    CommandRejectionReasonNotEnoughPowerFromJson(j, DefaultCommandRejectionReasonNotEnoughPower)
  }

  lemma CommandRejectionReasonNotEnoughPowerRoundTrip(v: CommandRejectionReasonNotEnoughPower)
    ensures CommandRejectionReasonNotEnoughPowerToJson(v).Ok? && CommandRejectionReasonNotEnoughPowerToJson(v).value.Obj?
    ensures GetCommandRejectionReasonNotEnoughPower(CommandRejectionReasonNotEnoughPowerToJson(v).value) == Ok(v)
  {
    hide Put, PutOptional, Get, At, OptionalAt, EncodeEach, DecodeEach, SeqFromJson, FixedFromJson, IntegerOf, U8FromJson, U16FromJson, U32FromJson, U64FromJson, EnumFromJson, FloatFromJson, BoolFromJson, StringFromJson;
  }

  // CommandRejectionReasonInvalidEntityType
  datatype CommandRejectionReasonInvalidEntityType = CommandRejectionReasonInvalidEntityType(entityType: u32)

  const DefaultCommandRejectionReasonInvalidEntityType: CommandRejectionReasonInvalidEntityType := CommandRejectionReasonInvalidEntityType(0)

  function CommandRejectionReasonInvalidEntityTypeToJson(v: CommandRejectionReasonInvalidEntityType): Outcome<Json>
  {
    var j1 := Put(Null, "entity_type", Int(v.entityType));
    Ok(j1)
  }

  function CommandRejectionReasonInvalidEntityTypeFromJson(j: Json, prior: CommandRejectionReasonInvalidEntityType): Outcome<CommandRejectionReasonInvalidEntityType>
  {
    var entityTypeJson :- At(j, "entity_type");
    var entityType :- U32FromJson(entityTypeJson);
    Ok(CommandRejectionReasonInvalidEntityType(entityType))
  }

  function GetCommandRejectionReasonInvalidEntityType(j: Json): Outcome<CommandRejectionReasonInvalidEntityType>
  {
    CommandRejectionReasonInvalidEntityTypeFromJson(j, DefaultCommandRejectionReasonInvalidEntityType)
  }

  lemma CommandRejectionReasonInvalidEntityTypeRoundTrip(v: CommandRejectionReasonInvalidEntityType)
    ensures CommandRejectionReasonInvalidEntityTypeToJson(v).Ok? && CommandRejectionReasonInvalidEntityTypeToJson(v).value.Obj?
    ensures GetCommandRejectionReasonInvalidEntityType(CommandRejectionReasonInvalidEntityTypeToJson(v).value) == Ok(v)
  {
    hide Put, PutOptional, Get, At, OptionalAt, EncodeEach, DecodeEach, SeqFromJson, FixedFromJson, IntegerOf, U8FromJson, U16FromJson, U32FromJson, U64FromJson, EnumFromJson, FloatFromJson, BoolFromJson, StringFromJson;
  }

  // CommandRejectionReasonCanNotCast
  datatype CommandRejectionReasonCanNotCast = CommandRejectionReasonCanNotCast(failedSpellConditions: seq<u32>)

  const DefaultCommandRejectionReasonCanNotCast: CommandRejectionReasonCanNotCast := CommandRejectionReasonCanNotCast([])

  function CommandRejectionReasonCanNotCastToJson(v: CommandRejectionReasonCanNotCast): Outcome<Json>
  {
    var failedSpellConditionsJson :- SeqToJson(v.failedSpellConditions, U32ToJson);
    var j1 := Put(Null, "failed_spell_conditions", failedSpellConditionsJson);
    Ok(j1)
  }

  function CommandRejectionReasonCanNotCastFromJson(j: Json, prior: CommandRejectionReasonCanNotCast): Outcome<CommandRejectionReasonCanNotCast>
  {
    var failedSpellConditionsJson :- At(j, "failed_spell_conditions");
    var failedSpellConditions :- SeqFromJson(failedSpellConditionsJson, U32FromJson);
    Ok(CommandRejectionReasonCanNotCast(failedSpellConditions))
  }

  function GetCommandRejectionReasonCanNotCast(j: Json): Outcome<CommandRejectionReasonCanNotCast>
  {
    CommandRejectionReasonCanNotCastFromJson(j, DefaultCommandRejectionReasonCanNotCast)
  }

  lemma CommandRejectionReasonCanNotCastRoundTrip(v: CommandRejectionReasonCanNotCast)
    ensures CommandRejectionReasonCanNotCastToJson(v).Ok? && CommandRejectionReasonCanNotCastToJson(v).value.Obj?
    ensures GetCommandRejectionReasonCanNotCast(CommandRejectionReasonCanNotCastToJson(v).value) == Ok(v)
  {
    hide Put, PutOptional, Get, At, OptionalAt, EncodeEach, DecodeEach, SeqFromJson, FixedFromJson, IntegerOf, U8FromJson, U16FromJson, U32FromJson, U64FromJson, EnumFromJson, FloatFromJson, BoolFromJson, StringFromJson;
    SeqRoundTrip(v.failedSpellConditions, U32ToJson, U32FromJson);
  }

  // CommandRejectionReason
  datatype CommandRejectionReason =
    | Invalid
    | CardRejected(cardRejected: CommandRejectionReasonCardRejected)
    | NotEnoughPower(notEnoughPower: CommandRejectionReasonNotEnoughPower)
    | SpellDoesNotExist
    | EntityDoesNotExist
    | InvalidEntityType(invalidEntityType: CommandRejectionReasonInvalidEntityType)
    | CanNotCast(canNotCast: CommandRejectionReasonCanNotCast)
    | EntityNotOwned
    | EntityOwnedBySomeoneElse
    | NoModeChange
    | EntityAlreadyInThisMode
    | ModeNotExist
    | InvalidCardIndex
    | InvalidCard

  /** The labels `from_json` tests, in order. */
  const CommandRejectionReasonLabels: seq<string> := ["CardRejected", "NotEnoughPower", "SpellDoesNotExist", "EntityDoesNotExist", "InvalidEntityType", "CanNotCast", "EntityNotOwned", "EntityOwnedBySomeoneElse", "NoModeChange", "EntityAlreadyInThisMode", "ModeNotExist", "InvalidCardIndex", "InvalidCard"]

  /** The position of the case in the `std::variant`; 0 is `Invalid`. */
  function CommandRejectionReasonIndex(v: CommandRejectionReason): nat
  {
    match v
    case Invalid => 0
    case CardRejected(_) => 1
    case NotEnoughPower(_) => 2
    case SpellDoesNotExist => 3
    case EntityDoesNotExist => 4
    case InvalidEntityType(_) => 5
    case CanNotCast(_) => 6
    case EntityNotOwned => 7
    case EntityOwnedBySomeoneElse => 8
    case NoModeChange => 9
    case EntityAlreadyInThisMode => 10
    case ModeNotExist => 11
    case InvalidCardIndex => 12
    case InvalidCard => 13
  }

  predicate CommandRejectionReasonEncodable(v: CommandRejectionReason)
  {
    match v
    case Invalid => false
    case CardRejected(_) => true
    case NotEnoughPower(_) => true
    case SpellDoesNotExist => true
    case EntityDoesNotExist => true
    case InvalidEntityType(_) => true
    case CanNotCast(_) => true
    case EntityNotOwned => true
    case EntityOwnedBySomeoneElse => true
    case NoModeChange => true
    case EntityAlreadyInThisMode => true
    case ModeNotExist => true
    case InvalidCardIndex => true
    case InvalidCard => true
  }

  /** The payload of the active case, as the union member holding it encodes. */
  function CommandRejectionReasonPayloadToJson(v: CommandRejectionReason): Outcome<Json>
  {
    hide CommandRejectionReasonCardRejectedToJson, CommandRejectionReasonNotEnoughPowerToJson, CommandRejectionReasonInvalidEntityTypeToJson, CommandRejectionReasonCanNotCastToJson;
    match v
    case Invalid => Err(InvalidDefaultVariant)
    case CardRejected(p) => CommandRejectionReasonCardRejectedToJson(p)
    case NotEnoughPower(p) => CommandRejectionReasonNotEnoughPowerToJson(p)
    case SpellDoesNotExist => Ok(MarkerJson("CommandRejectionReasonSpellDoesNotExist"))
    case EntityDoesNotExist => Ok(MarkerJson("CommandRejectionReasonEntityDoesNotExist"))
    case InvalidEntityType(p) => CommandRejectionReasonInvalidEntityTypeToJson(p)
    case CanNotCast(p) => CommandRejectionReasonCanNotCastToJson(p)
    case EntityNotOwned => Ok(MarkerJson("CommandRejectionReasonEntityNotOwned"))
    case EntityOwnedBySomeoneElse => Ok(MarkerJson("CommandRejectionReasonEntityOwnedBySomeoneElse"))
    case NoModeChange => Ok(MarkerJson("CommandRejectionReasonNoModeChange"))
    case EntityAlreadyInThisMode => Ok(MarkerJson("CommandRejectionReasonEntityAlreadyInThisMode"))
    case ModeNotExist => Ok(MarkerJson("CommandRejectionReasonModeNotExist"))
    case InvalidCardIndex => Ok(MarkerJson("CommandRejectionReasonInvalidCardIndex"))
    case InvalidCard => Ok(MarkerJson("CommandRejectionReasonInvalidCard"))
  }

  function CommandRejectionReasonToJson(v: CommandRejectionReason): Outcome<Json>
  {
    hide CommandRejectionReasonCardRejectedToJson, CommandRejectionReasonNotEnoughPowerToJson, CommandRejectionReasonInvalidEntityTypeToJson, CommandRejectionReasonCanNotCastToJson;
    match v
    case Invalid => Err(InvalidDefaultVariant)
    case CardRejected(p) => var x :- CommandRejectionReasonCardRejectedToJson(p); Ok(Obj([("CardRejected", x)]))
    case NotEnoughPower(p) => var x :- CommandRejectionReasonNotEnoughPowerToJson(p); Ok(Obj([("NotEnoughPower", x)]))
    case SpellDoesNotExist => Ok(Obj([("SpellDoesNotExist", MarkerJson("CommandRejectionReasonSpellDoesNotExist"))]))
    case EntityDoesNotExist => Ok(Obj([("EntityDoesNotExist", MarkerJson("CommandRejectionReasonEntityDoesNotExist"))]))
    case InvalidEntityType(p) => var x :- CommandRejectionReasonInvalidEntityTypeToJson(p); Ok(Obj([("InvalidEntityType", x)]))
    case CanNotCast(p) => var x :- CommandRejectionReasonCanNotCastToJson(p); Ok(Obj([("CanNotCast", x)]))
    case EntityNotOwned => Ok(Obj([("EntityNotOwned", MarkerJson("CommandRejectionReasonEntityNotOwned"))]))
    case EntityOwnedBySomeoneElse => Ok(Obj([("EntityOwnedBySomeoneElse", MarkerJson("CommandRejectionReasonEntityOwnedBySomeoneElse"))]))
    case NoModeChange => Ok(Obj([("NoModeChange", MarkerJson("CommandRejectionReasonNoModeChange"))]))
    case EntityAlreadyInThisMode => Ok(Obj([("EntityAlreadyInThisMode", MarkerJson("CommandRejectionReasonEntityAlreadyInThisMode"))]))
    case ModeNotExist => Ok(Obj([("ModeNotExist", MarkerJson("CommandRejectionReasonModeNotExist"))]))
    case InvalidCardIndex => Ok(Obj([("InvalidCardIndex", MarkerJson("CommandRejectionReasonInvalidCardIndex"))]))
    case InvalidCard => Ok(Obj([("InvalidCard", MarkerJson("CommandRejectionReasonInvalidCard"))]))
  }

  /** `value.get<Payload>()` for case `index` of `CommandRejectionReasonLabels`. */
  function CommandRejectionReasonCase(index: nat, payload: Json): Outcome<CommandRejectionReason>
    requires 1 <= index <= |CommandRejectionReasonLabels|
  {
    hide CommandRejectionReasonCardRejectedFromJson, CommandRejectionReasonNotEnoughPowerFromJson, CommandRejectionReasonInvalidEntityTypeFromJson, CommandRejectionReasonCanNotCastFromJson;
    match index
    case 1 => var x :- GetCommandRejectionReasonCardRejected(payload); Ok(CommandRejectionReason.CardRejected(x))
    case 2 => var x :- GetCommandRejectionReasonNotEnoughPower(payload); Ok(CommandRejectionReason.NotEnoughPower(x))
    case 3 => Ok(CommandRejectionReason.SpellDoesNotExist)
    case 4 => Ok(CommandRejectionReason.EntityDoesNotExist)
    case 5 => var x :- GetCommandRejectionReasonInvalidEntityType(payload); Ok(CommandRejectionReason.InvalidEntityType(x))
    case 6 => var x :- GetCommandRejectionReasonCanNotCast(payload); Ok(CommandRejectionReason.CanNotCast(x))
    case 7 => Ok(CommandRejectionReason.EntityNotOwned)
    case 8 => Ok(CommandRejectionReason.EntityOwnedBySomeoneElse)
    case 9 => Ok(CommandRejectionReason.NoModeChange)
    case 10 => Ok(CommandRejectionReason.EntityAlreadyInThisMode)
    case 11 => Ok(CommandRejectionReason.ModeNotExist)
    case 12 => Ok(CommandRejectionReason.InvalidCardIndex)
    case _ => Ok(CommandRejectionReason.InvalidCard)
  }

  function CommandRejectionReasonFromJson(j: Json, prior: CommandRejectionReason): Outcome<CommandRejectionReason>
  {
    match Select(CommandRejectionReasonLabels, j)
    case NoItems => Err(InvalidJson)
    case Unlabelled => Ok(prior)
    case Selected(index, payload) => CommandRejectionReasonCase(index, payload)
  }

  function GetCommandRejectionReason(j: Json): Outcome<CommandRejectionReason>
  {
    CommandRejectionReasonFromJson(j, CommandRejectionReason.Invalid)
  }

  /** No label of `CommandRejectionReasonLabels` occurs twice. */
  lemma CommandRejectionReasonLabelsDistinct()
    ensures Distinct(CommandRejectionReasonLabels)
  {
  }

  /** The round trip for cases 0 to 2, proved apart to keep each proof small. */
  lemma CommandRejectionReasonRoundTripPart1(v: CommandRejectionReason, prior: CommandRejectionReason)
    requires 0 <= CommandRejectionReasonIndex(v) <= 2
    ensures hide *; CommandRejectionReasonToJson(v).Ok? <==> CommandRejectionReasonEncodable(v)
    ensures hide *; CommandRejectionReasonEncodable(v) ==> CommandRejectionReasonFromJson(CommandRejectionReasonToJson(v).value, prior) == Ok(v)
  {
    CommandRejectionReasonLabelsDistinct();
    hide CommandRejectionReasonCardRejectedToJson, CommandRejectionReasonCardRejectedFromJson, CommandRejectionReasonNotEnoughPowerToJson, CommandRejectionReasonNotEnoughPowerFromJson, CommandRejectionReasonInvalidEntityTypeToJson, CommandRejectionReasonInvalidEntityTypeFromJson, CommandRejectionReasonCanNotCastToJson, CommandRejectionReasonCanNotCastFromJson, Select, Items, LastIndexOf, Distinct;
    match v
    case Invalid =>
    case CardRejected(p) =>
      CommandRejectionReasonCardRejectedRoundTrip(p);
      if CommandRejectionReasonCardRejectedToJson(p).Ok? {
        SelectEncoded(CommandRejectionReasonLabels, 1, CommandRejectionReasonCardRejectedToJson(p).value);
      }
    case NotEnoughPower(p) =>
      CommandRejectionReasonNotEnoughPowerRoundTrip(p);
      if CommandRejectionReasonNotEnoughPowerToJson(p).Ok? {
        SelectEncoded(CommandRejectionReasonLabels, 2, CommandRejectionReasonNotEnoughPowerToJson(p).value);
      }
    case _ => assert false;
  }

  /** The round trip for cases 3 to 5, proved apart to keep each proof small. */
  lemma CommandRejectionReasonRoundTripPart2(v: CommandRejectionReason, prior: CommandRejectionReason)
    requires 3 <= CommandRejectionReasonIndex(v) <= 5
    ensures hide *; CommandRejectionReasonToJson(v).Ok? <==> CommandRejectionReasonEncodable(v)
    ensures hide *; CommandRejectionReasonEncodable(v) ==> CommandRejectionReasonFromJson(CommandRejectionReasonToJson(v).value, prior) == Ok(v)
  {
    CommandRejectionReasonLabelsDistinct();
    hide CommandRejectionReasonCardRejectedToJson, CommandRejectionReasonCardRejectedFromJson, CommandRejectionReasonNotEnoughPowerToJson, CommandRejectionReasonNotEnoughPowerFromJson, CommandRejectionReasonInvalidEntityTypeToJson, CommandRejectionReasonInvalidEntityTypeFromJson, CommandRejectionReasonCanNotCastToJson, CommandRejectionReasonCanNotCastFromJson, Select, Items, LastIndexOf, Distinct;
    match v
    case SpellDoesNotExist => SelectEncoded(CommandRejectionReasonLabels, 3, MarkerJson("CommandRejectionReasonSpellDoesNotExist"));
    case EntityDoesNotExist => SelectEncoded(CommandRejectionReasonLabels, 4, MarkerJson("CommandRejectionReasonEntityDoesNotExist"));
    case InvalidEntityType(p) =>
      CommandRejectionReasonInvalidEntityTypeRoundTrip(p);
      if CommandRejectionReasonInvalidEntityTypeToJson(p).Ok? {
        SelectEncoded(CommandRejectionReasonLabels, 5, CommandRejectionReasonInvalidEntityTypeToJson(p).value);
      }
    case _ => assert false;
  }

  /** The round trip for cases 6 to 8, proved apart to keep each proof small. */
  lemma CommandRejectionReasonRoundTripPart3(v: CommandRejectionReason, prior: CommandRejectionReason)
    requires 6 <= CommandRejectionReasonIndex(v) <= 8
    ensures hide *; CommandRejectionReasonToJson(v).Ok? <==> CommandRejectionReasonEncodable(v)
    ensures hide *; CommandRejectionReasonEncodable(v) ==> CommandRejectionReasonFromJson(CommandRejectionReasonToJson(v).value, prior) == Ok(v)
  {
    CommandRejectionReasonLabelsDistinct();
    hide CommandRejectionReasonCardRejectedToJson, CommandRejectionReasonCardRejectedFromJson, CommandRejectionReasonNotEnoughPowerToJson, CommandRejectionReasonNotEnoughPowerFromJson, CommandRejectionReasonInvalidEntityTypeToJson, CommandRejectionReasonInvalidEntityTypeFromJson, CommandRejectionReasonCanNotCastToJson, CommandRejectionReasonCanNotCastFromJson, Select, Items, LastIndexOf, Distinct;
    match v
    case CanNotCast(p) =>
      CommandRejectionReasonCanNotCastRoundTrip(p);
      if CommandRejectionReasonCanNotCastToJson(p).Ok? {
        SelectEncoded(CommandRejectionReasonLabels, 6, CommandRejectionReasonCanNotCastToJson(p).value);
      }
    case EntityNotOwned => SelectEncoded(CommandRejectionReasonLabels, 7, MarkerJson("CommandRejectionReasonEntityNotOwned"));
    case EntityOwnedBySomeoneElse => SelectEncoded(CommandRejectionReasonLabels, 8, MarkerJson("CommandRejectionReasonEntityOwnedBySomeoneElse"));
    case _ => assert false;
  }

  /** The round trip for cases 9 to 11, proved apart to keep each proof small. */
  lemma CommandRejectionReasonRoundTripPart4(v: CommandRejectionReason, prior: CommandRejectionReason)
    requires 9 <= CommandRejectionReasonIndex(v) <= 11
    ensures hide *; CommandRejectionReasonToJson(v).Ok? <==> CommandRejectionReasonEncodable(v)
    ensures hide *; CommandRejectionReasonEncodable(v) ==> CommandRejectionReasonFromJson(CommandRejectionReasonToJson(v).value, prior) == Ok(v)
  {
    CommandRejectionReasonLabelsDistinct();
    hide CommandRejectionReasonCardRejectedToJson, CommandRejectionReasonCardRejectedFromJson, CommandRejectionReasonNotEnoughPowerToJson, CommandRejectionReasonNotEnoughPowerFromJson, CommandRejectionReasonInvalidEntityTypeToJson, CommandRejectionReasonInvalidEntityTypeFromJson, CommandRejectionReasonCanNotCastToJson, CommandRejectionReasonCanNotCastFromJson, Select, Items, LastIndexOf, Distinct;
    match v
    case NoModeChange => SelectEncoded(CommandRejectionReasonLabels, 9, MarkerJson("CommandRejectionReasonNoModeChange"));
    case EntityAlreadyInThisMode => SelectEncoded(CommandRejectionReasonLabels, 10, MarkerJson("CommandRejectionReasonEntityAlreadyInThisMode"));
    case ModeNotExist => SelectEncoded(CommandRejectionReasonLabels, 11, MarkerJson("CommandRejectionReasonModeNotExist"));
    case _ => assert false;
  }

  /** The round trip for cases 12 to 13, proved apart to keep each proof small. */
  lemma CommandRejectionReasonRoundTripPart5(v: CommandRejectionReason, prior: CommandRejectionReason)
    requires 12 <= CommandRejectionReasonIndex(v) <= 13
    ensures hide *; CommandRejectionReasonToJson(v).Ok? <==> CommandRejectionReasonEncodable(v)
    ensures hide *; CommandRejectionReasonEncodable(v) ==> CommandRejectionReasonFromJson(CommandRejectionReasonToJson(v).value, prior) == Ok(v)
  {
    CommandRejectionReasonLabelsDistinct();
    hide CommandRejectionReasonCardRejectedToJson, CommandRejectionReasonCardRejectedFromJson, CommandRejectionReasonNotEnoughPowerToJson, CommandRejectionReasonNotEnoughPowerFromJson, CommandRejectionReasonInvalidEntityTypeToJson, CommandRejectionReasonInvalidEntityTypeFromJson, CommandRejectionReasonCanNotCastToJson, CommandRejectionReasonCanNotCastFromJson, Select, Items, LastIndexOf, Distinct;
    match v
    case InvalidCardIndex => SelectEncoded(CommandRejectionReasonLabels, 12, MarkerJson("CommandRejectionReasonInvalidCardIndex"));
    case InvalidCard => SelectEncoded(CommandRejectionReasonLabels, 13, MarkerJson("CommandRejectionReasonInvalidCard"));
    case _ => assert false;
  }

  lemma CommandRejectionReasonRoundTrip(v: CommandRejectionReason, prior: CommandRejectionReason)
    ensures hide *; CommandRejectionReasonToJson(v).Ok? <==> CommandRejectionReasonEncodable(v)
    ensures hide *; CommandRejectionReasonEncodable(v) ==> CommandRejectionReasonFromJson(CommandRejectionReasonToJson(v).value, prior) == Ok(v)
  {
    if CommandRejectionReasonIndex(v) <= 2 {
      CommandRejectionReasonRoundTripPart1(v, prior);
    } else if CommandRejectionReasonIndex(v) <= 5 {
      CommandRejectionReasonRoundTripPart2(v, prior);
    } else if CommandRejectionReasonIndex(v) <= 8 {
      CommandRejectionReasonRoundTripPart3(v, prior);
    } else if CommandRejectionReasonIndex(v) <= 11 {
      CommandRejectionReasonRoundTripPart4(v, prior);
    } else {
      CommandRejectionReasonRoundTripPart5(v, prior);
    }
  }

  // RejectedCommand
  datatype RejectedCommand = RejectedCommand(player: EntityId, reason: CommandRejectionReason, command: Command)

  const DefaultRejectedCommand: RejectedCommand := RejectedCommand(0, CommandRejectionReason.Invalid, Command.Invalid)

  predicate RejectedCommandEncodable(v: RejectedCommand)
  {
    hide CommandRejectionReasonEncodable, CommandEncodable;
    CommandRejectionReasonEncodable(v.reason)
    && CommandEncodable(v.command)
  }

  function RejectedCommandToJson(v: RejectedCommand): Outcome<Json>
  {
    hide CommandRejectionReasonToJson, CommandToJson;
    var j1 := Put(Null, "player", Int(v.player));
    var reasonJson :- CommandRejectionReasonToJson(v.reason);
    var j2 := Put(j1, "reason", reasonJson);
    var commandJson :- CommandToJson(v.command);
    var j3 := Put(j2, "command", commandJson);
    Ok(j3)
  }

  function RejectedCommandFromJson(j: Json, prior: RejectedCommand): Outcome<RejectedCommand>
  {
    hide CommandRejectionReasonFromJson, CommandFromJson;
    var playerJson :- At(j, "player");
    var player :- U32FromJson(playerJson);
    var reasonJson :- At(j, "reason");
    var reason :- CommandRejectionReasonFromJson(reasonJson, prior.reason);
    var commandJson :- At(j, "command");
    var command :- CommandFromJson(commandJson, prior.command);
    Ok(RejectedCommand(player, reason, command))
  }

  function GetRejectedCommand(j: Json): Outcome<RejectedCommand>
  {
    RejectedCommandFromJson(j, DefaultRejectedCommand)
  }

  /** Each key of the encoded object holds its field, as written. */
  lemma RejectedCommandFields(v: RejectedCommand)
    requires RejectedCommandToJson(v).Ok?
    ensures hide *; var j := RejectedCommandToJson(v).value;
      && j.Obj?
      && At(j, "player") == Ok(Int(v.player))
      && CommandRejectionReasonToJson(v.reason).Ok?
      && At(j, "reason") == Ok(CommandRejectionReasonToJson(v.reason).value)
      && CommandToJson(v.command).Ok?
      && At(j, "command") == Ok(CommandToJson(v.command).value)
  {
    hide CommandRejectionReasonToJson, CommandToJson, Put, PutOptional, Get, At, OptionalAt, SeqToJson, IntegerOf;
  }

  lemma RejectedCommandRoundTrip(v: RejectedCommand)
    ensures hide *; RejectedCommandToJson(v).Ok? <==> RejectedCommandEncodable(v)
    ensures hide *; RejectedCommandToJson(v).Ok? ==> RejectedCommandToJson(v).value.Obj?
    ensures hide *; RejectedCommandEncodable(v) ==> GetRejectedCommand(RejectedCommandToJson(v).value) == Ok(v)
  {
    hide CommandRejectionReasonToJson, CommandRejectionReasonFromJson, CommandRejectionReasonEncodable, CommandToJson, CommandFromJson, CommandEncodable, Put, PutOptional, Get, At, OptionalAt, EncodeEach, DecodeEach, SeqFromJson, FixedFromJson, IntegerOf, U8FromJson, U16FromJson, U32FromJson, U64FromJson, EnumFromJson, FloatFromJson, BoolFromJson, StringFromJson;
    CommandRejectionReasonRoundTrip(v.reason, CommandRejectionReason.Invalid);
    CommandRoundTrip(v.command, Command.Invalid);
    if RejectedCommandToJson(v).Ok? && RejectedCommandEncodable(v) {
      RejectedCommandFields(v);
      var j := RejectedCommandToJson(v).value;
      hide RejectedCommandToJson;
      assert U32FromJson(Int(v.player)) == Ok(v.player);
      assert GetRejectedCommand(j) == Ok(v);
    }
  }

  /** A vector of `RejectedCommand` reads back as written. */
  lemma RejectedCommandSeqRoundTrip(s: seq<RejectedCommand>)
    ensures hide *; SeqToJson(s, RejectedCommandToJson).Ok? <==> forall i :: 0 <= i < |s| ==> RejectedCommandEncodable(s[i])
    ensures hide *; (forall i :: 0 <= i < |s| ==> RejectedCommandEncodable(s[i])) ==> SeqFromJson(SeqToJson(s, RejectedCommandToJson).value, GetRejectedCommand) == Ok(s)
  {
    hide RejectedCommandToJson, RejectedCommandFromJson, RejectedCommandEncodable;
    forall i | 0 <= i < |s|
      ensures RejectedCommandToJson(s[i]).Ok? <==> RejectedCommandEncodable(s[i])
      ensures RejectedCommandEncodable(s[i]) ==> GetRejectedCommand(RejectedCommandToJson(s[i]).value) == Ok(s[i])
    {
      RejectedCommandRoundTrip(s[i]);
    }
    EncodeEachOk(s, RejectedCommandToJson);
    if forall i :: 0 <= i < |s| ==> RejectedCommandEncodable(s[i]) {
      SeqRoundTrip(s, RejectedCommandToJson, GetRejectedCommand);
    }
  }

  // AiForMap
  datatype AiForMap = AiForMap(name: string, decks: seq<Deck>)

  const DefaultAiForMap: AiForMap := AiForMap("", [])

  function AiForMapToJson(v: AiForMap): Outcome<Json>
  {
    hide DeckToJson;
    var j1 := Put(Null, "name", Str(v.name));
    var decksJson :- SeqToJson(v.decks, DeckToJson);
    var j2 := Put(j1, "decks", decksJson);
    Ok(j2)
  }

  function AiForMapFromJson(j: Json, prior: AiForMap): Outcome<AiForMap>
  {
    hide DeckFromJson;
    var nameJson :- At(j, "name");
    var name :- StringFromJson(nameJson);
    var decksJson :- At(j, "decks");
    var decks :- SeqFromJson(decksJson, GetDeck);
    Ok(AiForMap(name, decks))
  }

  function GetAiForMap(j: Json): Outcome<AiForMap>
  {
    AiForMapFromJson(j, DefaultAiForMap)
  }

  /** Each key of the encoded object holds its field, as written. */
  lemma AiForMapFields(v: AiForMap)
    requires AiForMapToJson(v).Ok?
    ensures hide *; var j := AiForMapToJson(v).value;
      && j.Obj?
      && At(j, "name") == Ok(Str(v.name))
      && SeqToJson(v.decks, DeckToJson).Ok?
      && At(j, "decks") == Ok(SeqToJson(v.decks, DeckToJson).value)
  {
    hide DeckToJson, Put, PutOptional, Get, At, OptionalAt, SeqToJson, IntegerOf;
  }

  lemma AiForMapRoundTrip(v: AiForMap)
    ensures hide *; AiForMapToJson(v).Ok? && AiForMapToJson(v).value.Obj?
    ensures hide *; GetAiForMap(AiForMapToJson(v).value) == Ok(v)
  {
    hide DeckToJson, DeckFromJson, Put, PutOptional, Get, At, OptionalAt, EncodeEach, DecodeEach, SeqFromJson, FixedFromJson, IntegerOf, U8FromJson, U16FromJson, U32FromJson, U64FromJson, EnumFromJson, FloatFromJson, BoolFromJson, StringFromJson;
    DeckSeqRoundTrip(v.decks);
    if AiForMapToJson(v).Ok? {
      AiForMapFields(v);
      var j := AiForMapToJson(v).value;
      hide AiForMapToJson;
      assert StringFromJson(Str(v.name)) == Ok(v.name);
      assert GetAiForMap(j) == Ok(v);
    }
  }

  // MapEntities
  datatype MapEntities = MapEntities(projectiles: seq<Projectile>, powerSlots: seq<PowerSlot>, tokenSlots: seq<TokenSlot>, abilityWorldObjects: seq<AbilityWorldObject>, squads: seq<Squad>, figures: seq<Figure>, buildings: seq<Building>, barrierSets: seq<BarrierSet>, barrierModules: seq<BarrierModule>)

  const DefaultMapEntities: MapEntities := MapEntities([], [], [], [], [], [], [], [], [])

  predicate MapEntitiesEncodable(v: MapEntities)
  {
    hide PowerSlotEncodable, TokenSlotEncodable, AbilityWorldObjectEncodable, SquadEncodable, FigureEncodable, BuildingEncodable, BarrierSetEncodable, BarrierModuleEncodable;
    (forall i :: 0 <= i < |v.powerSlots| ==> PowerSlotEncodable(v.powerSlots[i]))
    && (forall i :: 0 <= i < |v.tokenSlots| ==> TokenSlotEncodable(v.tokenSlots[i]))
    && (forall i :: 0 <= i < |v.abilityWorldObjects| ==> AbilityWorldObjectEncodable(v.abilityWorldObjects[i]))
    && (forall i :: 0 <= i < |v.squads| ==> SquadEncodable(v.squads[i]))
    && (forall i :: 0 <= i < |v.figures| ==> FigureEncodable(v.figures[i]))
    && (forall i :: 0 <= i < |v.buildings| ==> BuildingEncodable(v.buildings[i]))
    && (forall i :: 0 <= i < |v.barrierSets| ==> BarrierSetEncodable(v.barrierSets[i]))
    && (forall i :: 0 <= i < |v.barrierModules| ==> BarrierModuleEncodable(v.barrierModules[i]))
  }

  function MapEntitiesToJson(v: MapEntities): Outcome<Json>
  {
    hide ProjectileToJson, PowerSlotToJson, TokenSlotToJson, AbilityWorldObjectToJson, SquadToJson, FigureToJson, BuildingToJson, BarrierSetToJson, BarrierModuleToJson;
    var projectilesJson :- SeqToJson(v.projectiles, ProjectileToJson);
    var j1 := Put(Null, "projectiles", projectilesJson);
    var powerSlotsJson :- SeqToJson(v.powerSlots, PowerSlotToJson);
    var j2 := Put(j1, "power_slots", powerSlotsJson);
    var tokenSlotsJson :- SeqToJson(v.tokenSlots, TokenSlotToJson);
    var j3 := Put(j2, "token_slots", tokenSlotsJson);
    var abilityWorldObjectsJson :- SeqToJson(v.abilityWorldObjects, AbilityWorldObjectToJson);
    var j4 := Put(j3, "ability_world_objects", abilityWorldObjectsJson);
    var squadsJson :- SeqToJson(v.squads, SquadToJson);
    var j5 := Put(j4, "squads", squadsJson);
    var figuresJson :- SeqToJson(v.figures, FigureToJson);
    var j6 := Put(j5, "figures", figuresJson);
    var buildingsJson :- SeqToJson(v.buildings, BuildingToJson);
    var j7 := Put(j6, "buildings", buildingsJson);
    var barrierSetsJson :- SeqToJson(v.barrierSets, BarrierSetToJson);
    var j8 := Put(j7, "barrier_sets", barrierSetsJson);
    var barrierModulesJson :- SeqToJson(v.barrierModules, BarrierModuleToJson);
    var j9 := Put(j8, "barrier_modules", barrierModulesJson);
    Ok(j9)
  }

  function MapEntitiesFromJson(j: Json, prior: MapEntities): Outcome<MapEntities>
  {
    hide ProjectileFromJson, PowerSlotFromJson, TokenSlotFromJson, AbilityWorldObjectFromJson, SquadFromJson, FigureFromJson, BuildingFromJson, BarrierSetFromJson, BarrierModuleFromJson;
    var projectilesJson :- At(j, "projectiles");
    var projectiles :- SeqFromJson(projectilesJson, GetProjectile);
    var powerSlotsJson :- At(j, "power_slots");
    var powerSlots :- SeqFromJson(powerSlotsJson, GetPowerSlot);
    var tokenSlotsJson :- At(j, "token_slots");
    var tokenSlots :- SeqFromJson(tokenSlotsJson, GetTokenSlot);
    var abilityWorldObjectsJson :- At(j, "ability_world_objects");
    var abilityWorldObjects :- SeqFromJson(abilityWorldObjectsJson, GetAbilityWorldObject);
    var squadsJson :- At(j, "squads");
    var squads :- SeqFromJson(squadsJson, GetSquad);
    var figuresJson :- At(j, "figures");
    var figures :- SeqFromJson(figuresJson, GetFigure);
    var buildingsJson :- At(j, "buildings");
    var buildings :- SeqFromJson(buildingsJson, GetBuilding);
    var barrierSetsJson :- At(j, "barrier_sets");
    var barrierSets :- SeqFromJson(barrierSetsJson, GetBarrierSet);
    var barrierModulesJson :- At(j, "barrier_modules");
    var barrierModules :- SeqFromJson(barrierModulesJson, GetBarrierModule);
    Ok(MapEntities(projectiles, powerSlots, tokenSlots, abilityWorldObjects, squads, figures, buildings, barrierSets, barrierModules))
  }

  function GetMapEntities(j: Json): Outcome<MapEntities>
  {
    MapEntitiesFromJson(j, DefaultMapEntities)
  }

  /** Keys of the encoded object, part 1: each holds its field, as written. */
  lemma MapEntitiesFieldsPart1(v: MapEntities)
    requires MapEntitiesToJson(v).Ok?
    ensures hide *; var j := MapEntitiesToJson(v).value;
      && j.Obj?
      && SeqToJson(v.projectiles, ProjectileToJson).Ok?
      && At(j, "projectiles") == Ok(SeqToJson(v.projectiles, ProjectileToJson).value)
      && SeqToJson(v.powerSlots, PowerSlotToJson).Ok?
      && At(j, "power_slots") == Ok(SeqToJson(v.powerSlots, PowerSlotToJson).value)
      && SeqToJson(v.tokenSlots, TokenSlotToJson).Ok?
      && At(j, "token_slots") == Ok(SeqToJson(v.tokenSlots, TokenSlotToJson).value)
      && SeqToJson(v.abilityWorldObjects, AbilityWorldObjectToJson).Ok?
      && At(j, "ability_world_objects") == Ok(SeqToJson(v.abilityWorldObjects, AbilityWorldObjectToJson).value)
  {
    hide ProjectileToJson, PowerSlotToJson, TokenSlotToJson, AbilityWorldObjectToJson, SquadToJson, FigureToJson, BuildingToJson, BarrierSetToJson, BarrierModuleToJson, Put, PutOptional, Get, At, OptionalAt, SeqToJson, IntegerOf;
  }

  /** Keys of the encoded object, part 2: each holds its field, as written. */
  lemma MapEntitiesFieldsPart2(v: MapEntities)
    requires MapEntitiesToJson(v).Ok?
    ensures hide *; var j := MapEntitiesToJson(v).value;
      && SeqToJson(v.squads, SquadToJson).Ok?
      && At(j, "squads") == Ok(SeqToJson(v.squads, SquadToJson).value)
      && SeqToJson(v.figures, FigureToJson).Ok?
      && At(j, "figures") == Ok(SeqToJson(v.figures, FigureToJson).value)
      && SeqToJson(v.buildings, BuildingToJson).Ok?
      && At(j, "buildings") == Ok(SeqToJson(v.buildings, BuildingToJson).value)
      && SeqToJson(v.barrierSets, BarrierSetToJson).Ok?
      && At(j, "barrier_sets") == Ok(SeqToJson(v.barrierSets, BarrierSetToJson).value)
  {
    hide ProjectileToJson, PowerSlotToJson, TokenSlotToJson, AbilityWorldObjectToJson, SquadToJson, FigureToJson, BuildingToJson, BarrierSetToJson, BarrierModuleToJson, Put, PutOptional, Get, At, OptionalAt, SeqToJson, IntegerOf;
  }

  /** Keys of the encoded object, part 3: each holds its field, as written. */
  lemma MapEntitiesFieldsPart3(v: MapEntities)
    requires MapEntitiesToJson(v).Ok?
    ensures hide *; var j := MapEntitiesToJson(v).value;
      && SeqToJson(v.barrierModules, BarrierModuleToJson).Ok?
      && At(j, "barrier_modules") == Ok(SeqToJson(v.barrierModules, BarrierModuleToJson).value)
  {
    hide ProjectileToJson, PowerSlotToJson, TokenSlotToJson, AbilityWorldObjectToJson, SquadToJson, FigureToJson, BuildingToJson, BarrierSetToJson, BarrierModuleToJson, Put, PutOptional, Get, At, OptionalAt, SeqToJson, IntegerOf;
  }

  lemma MapEntitiesRoundTrip(v: MapEntities)
    ensures hide *; MapEntitiesToJson(v).Ok? <==> MapEntitiesEncodable(v)
    ensures hide *; MapEntitiesToJson(v).Ok? ==> MapEntitiesToJson(v).value.Obj?
    ensures hide *; MapEntitiesEncodable(v) ==> GetMapEntities(MapEntitiesToJson(v).value) == Ok(v)
  {
    hide ProjectileToJson, ProjectileFromJson, PowerSlotToJson, PowerSlotFromJson, PowerSlotEncodable, TokenSlotToJson, TokenSlotFromJson, TokenSlotEncodable, AbilityWorldObjectToJson, AbilityWorldObjectFromJson, AbilityWorldObjectEncodable, SquadToJson, SquadFromJson, SquadEncodable, FigureToJson, FigureFromJson, FigureEncodable, BuildingToJson, BuildingFromJson, BuildingEncodable, BarrierSetToJson, BarrierSetFromJson, BarrierSetEncodable, BarrierModuleToJson, BarrierModuleFromJson, BarrierModuleEncodable, Put, PutOptional, Get, At, OptionalAt, EncodeEach, DecodeEach, SeqFromJson, FixedFromJson, IntegerOf, U8FromJson, U16FromJson, U32FromJson, U64FromJson, EnumFromJson, FloatFromJson, BoolFromJson, StringFromJson;
    ProjectileSeqRoundTrip(v.projectiles);
    PowerSlotSeqRoundTrip(v.powerSlots);
    TokenSlotSeqRoundTrip(v.tokenSlots);
    AbilityWorldObjectSeqRoundTrip(v.abilityWorldObjects);
    SquadSeqRoundTrip(v.squads);
    FigureSeqRoundTrip(v.figures);
    BuildingSeqRoundTrip(v.buildings);
    BarrierSetSeqRoundTrip(v.barrierSets);
    BarrierModuleSeqRoundTrip(v.barrierModules);
    if MapEntitiesToJson(v).Ok? && MapEntitiesEncodable(v) {
      MapEntitiesFieldsPart1(v);
      MapEntitiesFieldsPart2(v);
      MapEntitiesFieldsPart3(v);
      var j := MapEntitiesToJson(v).value;
      hide MapEntitiesToJson;
      assert GetMapEntities(j) == Ok(v);
    }
  }

  // GameStartState
  datatype GameStartState = GameStartState(yourPlayerId: EntityId, players: seq<MatchPlayer>, entities: MapEntities)

  const DefaultGameStartState: GameStartState := GameStartState(0, [], DefaultMapEntities)

  predicate GameStartStateEncodable(v: GameStartState)
  {
    hide MatchPlayerEncodable, MapEntitiesEncodable;
    (forall i :: 0 <= i < |v.players| ==> MatchPlayerEncodable(v.players[i]))
    && MapEntitiesEncodable(v.entities)
  }

  function GameStartStateToJson(v: GameStartState): Outcome<Json>
  {
    hide MatchPlayerToJson, MapEntitiesToJson;
    var j1 := Put(Null, "your_player_id", Int(v.yourPlayerId));
    var playersJson :- SeqToJson(v.players, MatchPlayerToJson);
    var j2 := Put(j1, "players", playersJson);
    var entitiesJson :- MapEntitiesToJson(v.entities);
    var j3 := Put(j2, "entities", entitiesJson);
    Ok(j3)
  }

  function GameStartStateFromJson(j: Json, prior: GameStartState): Outcome<GameStartState>
  {
    hide MatchPlayerFromJson, MapEntitiesFromJson;
    var yourPlayerIdJson :- At(j, "your_player_id");
    var yourPlayerId :- U32FromJson(yourPlayerIdJson);
    var playersJson :- At(j, "players");
    var players :- SeqFromJson(playersJson, GetMatchPlayer);
    var entitiesJson :- At(j, "entities");
    var entities :- MapEntitiesFromJson(entitiesJson, prior.entities);
    Ok(GameStartState(yourPlayerId, players, entities))
  }

  function GetGameStartState(j: Json): Outcome<GameStartState>
  {
    GameStartStateFromJson(j, DefaultGameStartState)
  }

  /** Each key of the encoded object holds its field, as written. */
  lemma GameStartStateFields(v: GameStartState)
    requires GameStartStateToJson(v).Ok?
    ensures hide *; var j := GameStartStateToJson(v).value;
      && j.Obj?
      && At(j, "your_player_id") == Ok(Int(v.yourPlayerId))
      && SeqToJson(v.players, MatchPlayerToJson).Ok?
      && At(j, "players") == Ok(SeqToJson(v.players, MatchPlayerToJson).value)
      && MapEntitiesToJson(v.entities).Ok?
      && At(j, "entities") == Ok(MapEntitiesToJson(v.entities).value)
  {
    hide MatchPlayerToJson, MapEntitiesToJson, Put, PutOptional, Get, At, OptionalAt, SeqToJson, IntegerOf;
  }

  lemma GameStartStateRoundTrip(v: GameStartState)
    ensures hide *; GameStartStateToJson(v).Ok? <==> GameStartStateEncodable(v)
    ensures hide *; GameStartStateToJson(v).Ok? ==> GameStartStateToJson(v).value.Obj?
    ensures hide *; GameStartStateEncodable(v) ==> GetGameStartState(GameStartStateToJson(v).value) == Ok(v)
  {
    hide MatchPlayerToJson, MatchPlayerFromJson, MatchPlayerEncodable, MapEntitiesToJson, MapEntitiesFromJson, MapEntitiesEncodable, Put, PutOptional, Get, At, OptionalAt, EncodeEach, DecodeEach, SeqFromJson, FixedFromJson, IntegerOf, U8FromJson, U16FromJson, U32FromJson, U64FromJson, EnumFromJson, FloatFromJson, BoolFromJson, StringFromJson;
    MatchPlayerSeqRoundTrip(v.players);
    MapEntitiesRoundTrip(v.entities);
    if GameStartStateToJson(v).Ok? && GameStartStateEncodable(v) {
      GameStartStateFields(v);
      var j := GameStartStateToJson(v).value;
      hide GameStartStateToJson;
      assert U32FromJson(Int(v.yourPlayerId)) == Ok(v.yourPlayerId);
      assert GetGameStartState(j) == Ok(v);
    }
  }

  // GameState
  datatype GameState = GameState(currentTick: Tick, commands: seq<PlayerCommand>, rejectedCommands: seq<RejectedCommand>, players: seq<PlayerEntity>, entities: MapEntities)

  const DefaultGameState: GameState := GameState(0, [], [], [], DefaultMapEntities)

  predicate GameStateEncodable(v: GameState)
  {
    hide PlayerCommandEncodable, RejectedCommandEncodable, PlayerEntityEncodable, MapEntitiesEncodable;
    (forall i :: 0 <= i < |v.commands| ==> PlayerCommandEncodable(v.commands[i]))
    && (forall i :: 0 <= i < |v.rejectedCommands| ==> RejectedCommandEncodable(v.rejectedCommands[i]))
    && (forall i :: 0 <= i < |v.players| ==> PlayerEntityEncodable(v.players[i]))
    && MapEntitiesEncodable(v.entities)
  }

  function GameStateToJson(v: GameState): Outcome<Json>
  {
    hide PlayerCommandToJson, RejectedCommandToJson, PlayerEntityToJson, MapEntitiesToJson;
    var j1 := Put(Null, "current_tick", Int(v.currentTick));
    var commandsJson :- SeqToJson(v.commands, PlayerCommandToJson);
    var j2 := Put(j1, "commands", commandsJson);
    var rejectedCommandsJson :- SeqToJson(v.rejectedCommands, RejectedCommandToJson);
    var j3 := Put(j2, "rejected_commands", rejectedCommandsJson);
    var playersJson :- SeqToJson(v.players, PlayerEntityToJson);
    var j4 := Put(j3, "players", playersJson);
    var entitiesJson :- MapEntitiesToJson(v.entities);
    var j5 := Put(j4, "entities", entitiesJson);
    Ok(j5)
  }

  function GameStateFromJson(j: Json, prior: GameState): Outcome<GameState>
  {
    hide PlayerCommandFromJson, RejectedCommandFromJson, PlayerEntityFromJson, MapEntitiesFromJson;
    var currentTickJson :- At(j, "current_tick");
    var currentTick :- U32FromJson(currentTickJson);
    var commandsJson :- At(j, "commands");
    var commands :- SeqFromJson(commandsJson, GetPlayerCommand);
    var rejectedCommandsJson :- At(j, "rejected_commands");
    var rejectedCommands :- SeqFromJson(rejectedCommandsJson, GetRejectedCommand);
    var playersJson :- At(j, "players");
    var players :- SeqFromJson(playersJson, GetPlayerEntity);
    var entitiesJson :- At(j, "entities");
    var entities :- MapEntitiesFromJson(entitiesJson, prior.entities);
    Ok(GameState(currentTick, commands, rejectedCommands, players, entities))
  }

  function GetGameState(j: Json): Outcome<GameState>
  {
    GameStateFromJson(j, DefaultGameState)
  }

  /** Each key of the encoded object holds its field, as written. */
  lemma GameStateFields(v: GameState)
    requires GameStateToJson(v).Ok?
    ensures hide *; var j := GameStateToJson(v).value;
      && j.Obj?
      && At(j, "current_tick") == Ok(Int(v.currentTick))
      && SeqToJson(v.commands, PlayerCommandToJson).Ok?
      && At(j, "commands") == Ok(SeqToJson(v.commands, PlayerCommandToJson).value)
      && SeqToJson(v.rejectedCommands, RejectedCommandToJson).Ok?
      && At(j, "rejected_commands") == Ok(SeqToJson(v.rejectedCommands, RejectedCommandToJson).value)
      && SeqToJson(v.players, PlayerEntityToJson).Ok?
      && At(j, "players") == Ok(SeqToJson(v.players, PlayerEntityToJson).value)
      && MapEntitiesToJson(v.entities).Ok?
      && At(j, "entities") == Ok(MapEntitiesToJson(v.entities).value)
  {
    hide PlayerCommandToJson, RejectedCommandToJson, PlayerEntityToJson, MapEntitiesToJson, Put, PutOptional, Get, At, OptionalAt, SeqToJson, IntegerOf;
  }

  lemma GameStateRoundTrip(v: GameState)
    ensures hide *; GameStateToJson(v).Ok? <==> GameStateEncodable(v)
    ensures hide *; GameStateToJson(v).Ok? ==> GameStateToJson(v).value.Obj?
    ensures hide *; GameStateEncodable(v) ==> GetGameState(GameStateToJson(v).value) == Ok(v)
  {
    hide PlayerCommandToJson, PlayerCommandFromJson, PlayerCommandEncodable, RejectedCommandToJson, RejectedCommandFromJson, RejectedCommandEncodable, PlayerEntityToJson, PlayerEntityFromJson, PlayerEntityEncodable, MapEntitiesToJson, MapEntitiesFromJson, MapEntitiesEncodable, Put, PutOptional, Get, At, OptionalAt, EncodeEach, DecodeEach, SeqFromJson, FixedFromJson, IntegerOf, U8FromJson, U16FromJson, U32FromJson, U64FromJson, EnumFromJson, FloatFromJson, BoolFromJson, StringFromJson;
    PlayerCommandSeqRoundTrip(v.commands);
    RejectedCommandSeqRoundTrip(v.rejectedCommands);
    PlayerEntitySeqRoundTrip(v.players);
    MapEntitiesRoundTrip(v.entities);
    if GameStateToJson(v).Ok? && GameStateEncodable(v) {
      GameStateFields(v);
      var j := GameStateToJson(v).value;
      hide GameStateToJson;
      assert U32FromJson(Int(v.currentTick)) == Ok(v.currentTick);
      assert GetGameState(j) == Ok(v);
    }
  }

  // Prepare
  datatype Prepare = Prepare(deck: string, mapInfo: MapInfo)

  const DefaultPrepare: Prepare := Prepare("", DefaultMapInfo)

  function PrepareToJson(v: Prepare): Outcome<Json>
  {
    hide MapInfoToJson;
    var j1 := Put(Null, "deck", Str(v.deck));
    var mapInfoJson :- MapInfoToJson(v.mapInfo);
    var j2 := Put(j1, "map_info", mapInfoJson);
    Ok(j2)
  }

  function PrepareFromJson(j: Json, prior: Prepare): Outcome<Prepare>
  {
    hide MapInfoFromJson;
    var deckJson :- At(j, "deck");
    var deck :- StringFromJson(deckJson);
    var mapInfoJson :- At(j, "map_info");
    var mapInfo :- MapInfoFromJson(mapInfoJson, prior.mapInfo);
    Ok(Prepare(deck, mapInfo))
  }

  function GetPrepare(j: Json): Outcome<Prepare>
  {
    PrepareFromJson(j, DefaultPrepare)
  }

  /** Each key of the encoded object holds its field, as written. */
  lemma PrepareFields(v: Prepare)
    requires PrepareToJson(v).Ok?
    ensures hide *; var j := PrepareToJson(v).value;
      && j.Obj?
      && At(j, "deck") == Ok(Str(v.deck))
      && MapInfoToJson(v.mapInfo).Ok?
      && At(j, "map_info") == Ok(MapInfoToJson(v.mapInfo).value)
  {
    hide MapInfoToJson, Put, PutOptional, Get, At, OptionalAt, SeqToJson, IntegerOf;
  }

  lemma PrepareRoundTrip(v: Prepare)
    ensures hide *; PrepareToJson(v).Ok? && PrepareToJson(v).value.Obj?
    ensures hide *; GetPrepare(PrepareToJson(v).value) == Ok(v)
  {
    hide MapInfoToJson, MapInfoFromJson, Put, PutOptional, Get, At, OptionalAt, EncodeEach, DecodeEach, SeqFromJson, FixedFromJson, IntegerOf, U8FromJson, U16FromJson, U32FromJson, U64FromJson, EnumFromJson, FloatFromJson, BoolFromJson, StringFromJson;
    MapInfoRoundTrip(v.mapInfo);
    if PrepareToJson(v).Ok? {
      PrepareFields(v);
      var j := PrepareToJson(v).value;
      hide PrepareToJson;
      assert StringFromJson(Str(v.deck)) == Ok(v.deck);
      assert GetPrepare(j) == Ok(v);
    }
  }

  // ApiHello
  datatype ApiHello = ApiHello(version: u64, mapId: MapInfo)

  const DefaultApiHello: ApiHello := ApiHello(0, DefaultMapInfo)

  function ApiHelloToJson(v: ApiHello): Outcome<Json>
  {
    hide MapInfoToJson;
    var j1 := Put(Null, "version", Int(v.version));
    var mapIdJson :- MapInfoToJson(v.mapId);
    var j2 := Put(j1, "map", mapIdJson);
    Ok(j2)
  }

  function ApiHelloFromJson(j: Json, prior: ApiHello): Outcome<ApiHello>
  {
    hide MapInfoFromJson;
    var versionJson :- At(j, "version");
    var version :- U64FromJson(versionJson);
    var mapIdJson :- At(j, "map");
    var mapId :- MapInfoFromJson(mapIdJson, prior.mapId);
    Ok(ApiHello(version, mapId))
  }

  function GetApiHello(j: Json): Outcome<ApiHello>
  {
    ApiHelloFromJson(j, DefaultApiHello)
  }

  /** Each key of the encoded object holds its field, as written. */
  lemma ApiHelloFields(v: ApiHello)
    requires ApiHelloToJson(v).Ok?
    ensures hide *; var j := ApiHelloToJson(v).value;
      && j.Obj?
      && At(j, "version") == Ok(Int(v.version))
      && MapInfoToJson(v.mapId).Ok?
      && At(j, "map") == Ok(MapInfoToJson(v.mapId).value)
  {
    hide MapInfoToJson, Put, PutOptional, Get, At, OptionalAt, SeqToJson, IntegerOf;
  }

  lemma ApiHelloRoundTrip(v: ApiHello)
    ensures hide *; ApiHelloToJson(v).Ok? && ApiHelloToJson(v).value.Obj?
    ensures hide *; GetApiHello(ApiHelloToJson(v).value) == Ok(v)
  {
    hide MapInfoToJson, MapInfoFromJson, Put, PutOptional, Get, At, OptionalAt, EncodeEach, DecodeEach, SeqFromJson, FixedFromJson, IntegerOf, U8FromJson, U16FromJson, U32FromJson, U64FromJson, EnumFromJson, FloatFromJson, BoolFromJson, StringFromJson;
    MapInfoRoundTrip(v.mapId);
    if ApiHelloToJson(v).Ok? {
      ApiHelloFields(v);
      var j := ApiHelloToJson(v).value;
      hide ApiHelloToJson;
      assert U64FromJson(Int(v.version)) == Ok(v.version);
      assert GetApiHello(j) == Ok(v);
    }
  }

  /**
   * A payload without fields goes on the wire with a null value:
   * surrender is `{"Surrender": {"CommandSurrender": null}}`.
   */
  lemma SurrenderWireForm()
    ensures CommandToJson(Command.Surrender) == Ok(Obj([("Surrender", Obj([("CommandSurrender", Null)]))]))
  {
  }
}
