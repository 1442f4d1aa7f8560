// Health arithmetic of the game: an enemy losing 10 per hit and respawning,
// the player ship losing 5 per contact with its plasma-venting threshold, and
// the text health bars both draw. Every quantity here is exact in the source's
// Double (multiples of 5 and 10), so reals model it without rounding.

module Combat {

  /** Entity.health and Entity.maxHealth start here (Entity.swift). */
  const FullHealth: real := 100.0

  /** Enemy.damageTakenPerHit. */
  const DamageTakenPerHit: real := 10.0

  /** What PlayerShip.collidedWith subtracts per contact. */
  const PlayerDamagePerContact: real := 5.0

  /** The ship vents plasma once its health is at or below this. */
  const VentingThreshold: real := 30.0

  /** EnemyA.score. */
  const EnemyAScore: int := 225

  /** The enemy's new health, and whether the hit killed it (and so awarded its score). */
  datatype EnemyHitOutcome = EnemyHitOutcome(health: real, lethal: bool)

  /**
   * The health/score part of Enemy.collidedWith: lose damageTakenPerHit; at zero or
   * below the enemy is marked dead, its score goes to the scene, and its health is
   * restored to maxHealth in the same call.
   */
  function EnemyHit(health: real, maxHealth: real): (r: EnemyHitOutcome)
    ensures r.lethal <==> health <= DamageTakenPerHit
    ensures !r.lethal ==> r.health == health - DamageTakenPerHit
    ensures r.lethal ==> r.health == maxHealth
  {
    var h := health - DamageTakenPerHit;
    if h <= 0.0 then EnemyHitOutcome(maxHealth, true) else EnemyHitOutcome(h, false)
  }

  /** A hit keeps an enemy's health in (0, maxHealth]: it is never seen at zero. */
  lemma EnemyHitKeepsRange(health: real, maxHealth: real)
    requires 0.0 < health <= maxHealth
    ensures 0.0 < EnemyHit(health, maxHealth).health <= maxHealth
    ensures EnemyHit(health, maxHealth).lethal || EnemyHit(health, maxHealth).health < health
  {
  }

  /** Health and number of scores awarded after `n` hits. */
  datatype HitTally = HitTally(health: real, awards: nat)

  function EnemyHits(n: nat, health: real, maxHealth: real): (r: HitTally)
  {
    if n == 0 then HitTally(health, 0)
    else
      var before := EnemyHits(n - 1, health, maxHealth);
      var hit := EnemyHit(before.health, maxHealth);
      HitTally(hit.health, before.awards + (if hit.lethal then 1 else 0))
  }

  /**
   * From full health an enemy dies on every tenth hit and on no other: after `n`
   * hits it has been awarded n / 10 times and shows 100 - 10·(n mod 10) health.
   */
  lemma {:induction false} TenHitCycle(n: nat)
    ensures EnemyHits(n, FullHealth, FullHealth)
            == HitTally(FullHealth - DamageTakenPerHit * ((n % 10) as real), n / 10)
  {
    if n > 0 {
      TenHitCycle(n - 1);
      var m := n - 1;
      if m % 10 == 9 {
        assert n % 10 == 0 && n / 10 == m / 10 + 1;
      } else {
        assert n % 10 == m % 10 + 1 && n / 10 == m / 10;
      }
    }
  }

  /** The tenth hit is the first that awards the score. */
  lemma TenthHitAwards()
    ensures forall n: nat :: 1 <= n <= 9 ==> EnemyHits(n, FullHealth, FullHealth).awards == 0
    ensures EnemyHits(10, FullHealth, FullHealth) == HitTally(FullHealth, 1)
  {
    forall n: nat | 1 <= n <= 9
      ensures EnemyHits(n, FullHealth, FullHealth).awards == 0
    {
      TenHitCycle(n);
    }
    TenHitCycle(10);
  }

  /** The ship's new health, and whether the venting-plasma emitter stays hidden. */
  datatype PlayerHitOutcome = PlayerHitOutcome(health: real, ventingHidden: bool)

  /**
   * PlayerShip.collidedWith: lose 5; the emitter is hidden while the (unclamped)
   * health is above 30; a negative health is then clamped to 0.
   */
  function PlayerHit(health: real): (r: PlayerHitOutcome)
    ensures r.health >= 0.0
    ensures !r.ventingHidden <==> r.health <= VentingThreshold
    ensures health >= PlayerDamagePerContact ==> r.health == health - PlayerDamagePerContact
    ensures health < PlayerDamagePerContact ==> r.health == 0.0
  {
    var h := health - PlayerDamagePerContact;
    PlayerHitOutcome(if h < 0.0 then 0.0 else h, h > VentingThreshold)
  }

  /** Contacts never heal a ship whose health is not negative. */
  lemma PlayerHitNonIncreasing(health: real)
    requires health >= 0.0
    ensures PlayerHit(health).health <= health
    ensures health > 0.0 ==> PlayerHit(health).health < health
  {
  }

  /** The ship's health after `n` contacts. */
  function Contacts(n: nat, health: real): real
  {
    if n == 0 then health else PlayerHit(Contacts(n - 1, health)).health
  }

  /** From full health, `n` contacts leave max(0, 100 - 5n). */
  lemma {:induction false} ContactsFromFull(n: nat)
    ensures Contacts(n, FullHealth)
            == if 5 * n <= 100 then FullHealth - PlayerDamagePerContact * (n as real) else 0.0
  {
    if n > 0 {
      ContactsFromFull(n - 1);
    }
  }

  /** The twentieth contact is the one that reaches 0; later ones keep it there. */
  lemma TwentiethContactEmpties(n: nat)
    ensures n < 20 ==> Contacts(n, FullHealth) > 0.0
    ensures n >= 20 ==> Contacts(n, FullHealth) == 0.0
  {
    ContactsFromFull(n);
  }

  /** Swift's Int(Double): truncation toward zero. */
  function TruncateToInt(x: real): (r: int)
    ensures x >= 0.0 ==> 0 <= r && r as real <= x < r as real + 1.0
    ensures x < 0.0 ==> r <= 0 && r as real - 1.0 < x <= r as real
  {
    if x >= 0.0 then x.Floor else -((-x).Floor)
  }

  /**
   * How many characters of a health-bar string of `barLength` characters are shown:
   * Int(barLength · health / 100), as Enemy.update (8) and GameScene.update (20) compute it.
   */
  function BarLength(barLength: nat, health: real): int
  {
    TruncateToInt(barLength as real * health / 100.0)
  }

  /** Within 0 <= health <= 100 the index never leaves the string. */
  lemma BarLengthInRange(barLength: nat, health: real)
    requires 0.0 <= health <= FullHealth
    ensures 0 <= BarLength(barLength, health) <= barLength
    ensures health == FullHealth ==> BarLength(barLength, health) == barLength
  {
    MulBetween(barLength as real, health);
  }

  lemma MulBetween(n: real, h: real)
    requires 0.0 <= n && 0.0 <= h <= 100.0
    ensures 0.0 <= n * h / 100.0 <= n
  {
    assert n * h <= n * 100.0;
  }

  /** More health never shows a shorter bar. */
  lemma BarLengthMonotone(barLength: nat, h1: real, h2: real)
    requires 0.0 <= h1 <= h2
    ensures BarLength(barLength, h1) <= BarLength(barLength, h2)
  {
    assert barLength as real * h1 <= barLength as real * h2;
  }

  /** The shown part of a health bar. */
  function Bar(bar: string, health: real): (r: string)
    requires 0.0 <= health <= FullHealth
    ensures |r| == BarLength(|bar|, health) && r <= bar
  {
    BarLengthInRange(|bar|, health);
    bar[..BarLength(|bar|, health)]
  }
}
