/** Health arithmetic shared by the variants: the clamp that `updateHealth`
    applies and the minimum-one counter-attack damage. */
module Damage {

  const MaxHealth := 100

  /** The health `updateHealth` stores for a raw sum `h`: values above the
      maximum become the maximum, negative ones become 0, others are kept. */
  function Clamp(h: int): (r: int)
    ensures 0 <= r <= MaxHealth
    ensures r == h <==> 0 <= h <= MaxHealth
    ensures h > MaxHealth ==> r == MaxHealth
    ensures h < 0 ==> r == 0
  {
    if h > MaxHealth then MaxHealth else if h < 0 then 0 else h
  }

  /** The damage an enemy hit deals through armor: the enemy's damage less the
      protection, but never less than 1. */
  function CounterDamage(damage: int, protection: int): (r: int)
    ensures r >= 1 && r >= damage - protection
    ensures r == damage - protection || r == 1
  {
    if damage - protection < 1 then 1 else damage - protection
  }

  /** A hit on a living player with at most full health always lowers the
      stored health by at least 1. */
  lemma HitLowersHealth(health: int, damage: int, protection: int)
    requires 0 < health <= MaxHealth
    ensures Clamp(health - CounterDamage(damage, protection)) < health
  {
  }

  /** One more repetition of a fixed loss adds that loss once. */
  lemma MulStep(n: int, x: int)
    ensures (n + 1) * x == n * x + x
  {
  }
}
