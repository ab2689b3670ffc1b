/** Experience points and levels, as each store derives them after a day
    mutation. */
module Progress {
  import opened Domain

  const XpPerLevel := 500

  /** `Math.floor(x / 500) + 1`: the level whose 500-point band holds `x`. */
  function LevelOf(x: int): (l: int)
    ensures (l - 1) * XpPerLevel <= x < l * XpPerLevel
    ensures x >= 0 ==> l >= 1
  {
    x / XpPerLevel + 1
  }

  /** The invariant the newer store keeps (lib/store.ts:80-81): xp is never
      negative and the level
      is always the band of the stored xp. */
  predicate Consistent(p: IdentityProfile)
  {
    p.xp >= 0 && p.level == LevelOf(p.xp)
  }

  /** Newer store: xp is clamped at zero and the level is derived from the
      clamped value. */
  function Award(p: IdentityProfile, gain: int): (r: IdentityProfile)
    ensures Consistent(r) && r.level >= 1
    ensures r.xp >= p.xp + gain && (r.xp == 0 || r.xp == p.xp + gain)
    ensures r == p.(xp := r.xp, level := r.level)
  {
    var xp := if p.xp + gain < 0 then 0 else p.xp + gain;
    p.(xp := xp, level := LevelOf(xp))
  }

  /** Older store, as written: xp is clamped at zero but the level is derived
      from the unclamped sum. */
  function LegacyAward(p: IdentityProfile, gain: int): (r: IdentityProfile)
    ensures r.xp >= 0
    ensures r.xp >= p.xp + gain && (r.xp == 0 || r.xp == p.xp + gain)
    ensures (r.level - 1) * XpPerLevel <= p.xp + gain < r.level * XpPerLevel
    ensures r == p.(xp := r.xp, level := r.level)
  {
    var raw := p.xp + gain;
    p.(xp := if raw < 0 then 0 else raw, level := LevelOf(raw))
  }

  /** The two derivations agree whenever the sum does not go negative. */
  lemma LegacyAgreesWhenNonNegative(p: IdentityProfile, gain: int)
    requires p.xp + gain >= 0
    ensures LegacyAward(p, gain) == Award(p, gain)
  {
  }

  /** Un-completing a task with xp already at zero: the older store stores
      xp 0 with level 0, breaking the level invariant; the newer one keeps
      level 1. */
  lemma LegacyLevelDropsToZero(p: IdentityProfile)
    requires p.xp == 0
    ensures LegacyAward(p, -XpPerTask).xp == 0
    ensures LegacyAward(p, -XpPerTask).level == 0
    ensures !Consistent(LegacyAward(p, -XpPerTask))
    ensures Award(p, -XpPerTask).level == 1
  {
  }
}
