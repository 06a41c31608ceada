/**
 * The one-line explanation a bot prints when the game rejects one of its
 * commands.
 */
module DebugPrint {
  import opened Types
  import Text

  /** What the case split writes before the line end. */
  function CaseText(reason: CommandRejectionReason): string
  {
    match reason
    case Invalid => ""
    case CardRejected(p) => "Can not play card " + Text.Hex(p.reason)
    case NotEnoughPower(_) => "NotEnoughPower"
    case SpellDoesNotExist => "SpellDoesNotExist"
    case EntityDoesNotExist => "EntityDoesNotExist"
    case InvalidEntityType(p) => "entity_type " + Text.Decimal(p.entityType) + " is not valid"
    case CanNotCast(_) => "CanNotCast"
    case EntityNotOwned => "EntityNotOwned"
    case EntityOwnedBySomeoneElse => "EntityOwnedBySomeoneElse"
    case NoModeChange => "NoModeChange"
    case EntityAlreadyInThisMode => "EntityAlreadyInThisMode"
    case ModeNotExist => "ModeNotExist"
    case InvalidCardIndex => "InvalidCardIndex"
    case InvalidCard => "InvalidCard"
  }

  /** `Debug(reason)`: the case text, then a line end in every case. */
  function Debug(reason: CommandRejectionReason): (r: string)
    ensures |r| > 0 && r[|r| - 1] == '\n'
    ensures reason.Invalid? <==> r == "\n"
  {
    CaseText(reason) + "\n"
  }

  const CardRejectedPrefix := "Can not play card "

  /** A card rejection names the rejection reason in hexadecimal digits that read back to it. */
  lemma CardRejectedShowsReason(p: CommandRejectionReasonCardRejected)
    ensures var r := Debug(CardRejected(p));
      && |r| > |CardRejectedPrefix| + 1
      && r[..|CardRejectedPrefix|] == CardRejectedPrefix
      && Text.IsDigitString(r[|CardRejectedPrefix|..|r| - 1], 16)
      && Text.ValueOf(r[|CardRejectedPrefix|..|r| - 1], 16) == p.reason
  {
    var r := Debug(CardRejected(p));
    assert r == CardRejectedPrefix + Text.Hex(p.reason) + "\n";
    assert r[|CardRejectedPrefix|..|r| - 1] == Text.Hex(p.reason);
    Text.RenderRoundTrip(p.reason, 16);
  }

  const EntityTypePrefix := "entity_type "
  const EntityTypeSuffix := " is not valid\n"

  /** An invalid entity type is named in decimal digits that read back to it. */
  lemma InvalidEntityTypeShowsType(p: CommandRejectionReasonInvalidEntityType)
    ensures var r := Debug(InvalidEntityType(p));
      var n := |r| - |EntityTypeSuffix|;
      && |EntityTypePrefix| < n
      && r[..|EntityTypePrefix|] == EntityTypePrefix
      && r[n..] == EntityTypeSuffix
      && Text.IsDigitString(r[|EntityTypePrefix|..n], 10)
      && Text.ValueOf(r[|EntityTypePrefix|..n], 10) == p.entityType
  {
    var r := Debug(InvalidEntityType(p));
    var d := Text.Decimal(p.entityType);
    assert r == EntityTypePrefix + d + EntityTypeSuffix;
    var n := |r| - |EntityTypeSuffix|;
    assert r[|EntityTypePrefix|..n] == d;
    assert r[n..] == EntityTypeSuffix;
    Text.RenderRoundTrip(p.entityType, 10);
  }

  /**
   * Every other valid case prints exactly its case name, which is also the
   * label the case travels under in JSON; its payload is not printed.
   */
  lemma OtherCasesPrintTheirName(reason: CommandRejectionReason)
    requires !reason.Invalid? && !reason.CardRejected? && !reason.InvalidEntityType?
    ensures Debug(reason) == CommandRejectionReasonLabels[CommandRejectionReasonIndex(reason) - 1] + "\n"
  {
    match reason
    case NotEnoughPower(_) =>
    case SpellDoesNotExist =>
    case EntityDoesNotExist =>
    case CanNotCast(_) =>
    case EntityNotOwned =>
    case EntityOwnedBySomeoneElse =>
    case NoModeChange =>
    case EntityAlreadyInThisMode =>
    case ModeNotExist =>
    case InvalidCardIndex =>
    case InvalidCard =>
  }
}
