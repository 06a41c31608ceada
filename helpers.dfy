/**
 * The two conveniences the bots use: the id of an upgraded card, and the
 * ground position of a point. The C-like header repeats both word for word
 * over the C-like records, which share the `Types` datatypes here, so one
 * definition serves both.
 */
module Helpers {
  import opened Codec
  import opened Types

  /**
   * A card template number. The values live in `CardTemplate.h`, which is
   * not part of this model; any number may be given.
   */
  type CardTemplate = nat

  const CardIdRange: nat := 0x1_0000_0000

  /**
   * `CardId(ct + u)`: the template number plus the upgrade offset, cut to
   * the 32 bits of a `CardId`.
   */
  function CardIdWithUpgrade(ct: CardTemplate, u: Upgrade): (r: CardId)
    ensures ct + u < CardIdRange ==> r == ct + u
  {
    (ct + u) % CardIdRange
  }

  /** Upgrade level 0 leaves the template number as the card id. */
  lemma NoUpgradeIsTemplate(ct: CardTemplate)
    requires ct < CardIdRange
    ensures CardIdWithUpgrade(ct, UpgradeU0) == ct
  {
  }

  /** Each upgrade level adds its own million. */
  lemma UpgradeOffsets(ct: CardTemplate)
    requires ct + UpgradeU3 < CardIdRange
    ensures CardIdWithUpgrade(ct, UpgradeU1) == ct + 1_000_000
    ensures CardIdWithUpgrade(ct, UpgradeU2) == ct + 2_000_000
    ensures CardIdWithUpgrade(ct, UpgradeU3) == ct + 3_000_000
  {
  }

  /**
   * While the sums fit, the card id tells both the template and the upgrade
   * apart: templates below one million never collide across levels.
   */
  lemma UpgradeIsRecoverable(ct1: CardTemplate, u1: Upgrade, ct2: CardTemplate, u2: Upgrade)
    requires ct1 < 1_000_000 && ct2 < 1_000_000
    requires u1 in {UpgradeU0, UpgradeU1, UpgradeU2, UpgradeU3}
    requires u2 in {UpgradeU0, UpgradeU1, UpgradeU2, UpgradeU3}
    requires CardIdWithUpgrade(ct1, u1) == CardIdWithUpgrade(ct2, u2)
    ensures ct1 == ct2 && u1 == u2
  {
    assert CardIdWithUpgrade(ct1, u1) == ct1 + u1;
    assert CardIdWithUpgrade(ct2, u2) == ct2 + u2;
  }

  /** The ground position under `p`: x stays x, and z becomes the second coordinate. */
  function To2D(p: Position): (r: Position2D)
    ensures r.x == p.x && r.y == p.z
  {
    var pos2d := DefaultPosition2D;
    pos2d.(x := p.x, y := p.z)
  }

  /** The height `p.y` never matters. */
  lemma To2DIgnoresHeight(p: Position, height: real)
    ensures To2D(p.(y := height)) == To2D(p)
  {
  }

  /** Different ground positions come from different points. */
  lemma To2DSeparates(p: Position, q: Position)
    requires p.x != q.x || p.z != q.z
    ensures To2D(p) != To2D(q)
  {
  }
}
