/**
 * Hit points of any living entity: damage with a short invincibility
 * window after each hit, healing capped at the maximum, and a death signal.
 */
module Health {
  import opened Common
  import opened DamageInfo

  /** The notifications the component raises, in the order it raises them. */
  datatype HealthEvent =
    | Damaged(info: DamageInfo)
    | Healed(gain: real)
    | HealthChanged(current: real, maximum: real)
    | Died
    | KnockedBack(force: Vec)

  /** `Mathf.Clamp(v, lo, hi)`. */
  function Clamp(v: real, lo: real, hi: real): (r: real)
    requires lo <= hi
    ensures lo <= r <= hi
    ensures lo <= v <= hi ==> r == v
  {
    if v < lo then lo else if v > hi then hi else v
  }

  class Health {
    const maxHealth: PosReal
    const invincibilityDuration: real
    /** Whether the entity carries a `Rigidbody2D` that receives knockback. */
    const hasRigidbody: bool
    var currentHealth: real
    var invincibilityTimer: real
    var events: seq<HealthEvent>

    predicate IsAlive() reads this { currentHealth > 0.0 }

    predicate IsInvincible() reads this { invincibilityTimer > 0.0 }

    /** Health within its bounds; every mutator keeps it for non-negative amounts. */
    predicate InRange() reads this { 0.0 <= currentHealth <= maxHealth }

    /** `HealthPercent`: a fraction of the maximum, positive exactly while alive. */
    function HealthPercent(): (p: real)
      reads this
      ensures InRange() ==> 0.0 <= p <= 1.0
      ensures p > 0.0 <==> IsAlive()
    {
      currentHealth / maxHealth
    }

    /** `Awake`: the entity starts at full health and vulnerable. */
    constructor (maxHealth: PosReal, invincibilityDuration: real, hasRigidbody: bool)
      ensures this.maxHealth == maxHealth && this.invincibilityDuration == invincibilityDuration
      ensures this.hasRigidbody == hasRigidbody
      ensures currentHealth == maxHealth && invincibilityTimer == 0.0 && events == []
      ensures InRange() && IsAlive()
    {
      this.maxHealth := maxHealth;
      this.invincibilityDuration := invincibilityDuration;
      this.hasRigidbody := hasRigidbody;
      currentHealth := maxHealth;
      invincibilityTimer := 0.0;
      events := [];
    }

    /** `Update`: the invincibility window runs down only while it is open. */
    method Update(dt: real)
      modifies this`invincibilityTimer
      ensures invincibilityTimer == if old(invincibilityTimer) > 0.0 then old(invincibilityTimer) - dt else old(invincibilityTimer)
    {
      if invincibilityTimer > 0.0 {
        invincibilityTimer := invincibilityTimer - dt;
      }
    }

    /** The knockback impulse a hit applies, if any. */
    function KnockbackOf(info: DamageInfo): (r: seq<HealthEvent>)
      reads this
      ensures |r| <= 1 && (r != [] ==> hasRigidbody && r[0] == KnockedBack(info.knockbackForce))
      ensures info.knockbackForce == Zero ==> r == []
    {
      if info.knockbackForce != Zero && hasRigidbody then [KnockedBack(info.knockbackForce)] else []
    }

    /**
     * `TakeDamage`. A dead or invincible entity ignores the hit. Otherwise
     * health drops by the amount but not below zero, the invincibility
     * window opens, and the damage and health-change notifications fire;
     * death is signalled exactly when this hit took the last hit point,
     * so a dead entity is never signalled dead again by a hit.
     */
    method TakeDamage(info: DamageInfo)
      modifies this`currentHealth, this`invincibilityTimer, this`events
      ensures !old(IsAlive()) || old(IsInvincible()) ==>
        currentHealth == old(currentHealth) && invincibilityTimer == old(invincibilityTimer) && events == old(events)
      ensures old(IsAlive()) && !old(IsInvincible()) ==>
        && currentHealth == Max(0.0, old(currentHealth) - info.amount)
        && invincibilityTimer == invincibilityDuration
        && events == old(events) + KnockbackOf(info) + [Damaged(info), HealthChanged(currentHealth, maxHealth)]
                     + (if IsAlive() then [] else [Died])
      ensures (Died in events[|old(events)|..]) <==> (old(IsAlive()) && !old(IsInvincible()) && !IsAlive())
      ensures old(InRange()) && info.amount >= 0.0 ==> InRange()
    {
      if !IsAlive() || IsInvincible() {
        assert events[|events|..] == [];
        return;
      }
      currentHealth := currentHealth - info.amount;
      currentHealth := Max(0.0, currentHealth);
      invincibilityTimer := invincibilityDuration;
      events := events + KnockbackOf(info);
      events := events + [Damaged(info), HealthChanged(currentHealth, maxHealth)];
      if !IsAlive() {
        Die();
      }
      assert events[|old(events)|..] == KnockbackOf(info) + [Damaged(info), HealthChanged(currentHealth, maxHealth)]
                                         + (if IsAlive() then [] else [Died]);
    }

    /**
     * `Heal`. Ignored when dead; otherwise health rises by the amount but
     * not above the maximum, and the heal is announced only if health
     * actually rose.
     */
    method Heal(amount: real)
      modifies this`currentHealth, this`events
      ensures !old(IsAlive()) ==> currentHealth == old(currentHealth) && events == old(events)
      ensures old(IsAlive()) ==> currentHealth == Min(old(currentHealth) + amount, maxHealth)
      ensures old(IsAlive()) && currentHealth > old(currentHealth) ==>
        events == old(events) + [Healed(currentHealth - old(currentHealth)), HealthChanged(currentHealth, maxHealth)]
      ensures currentHealth <= old(currentHealth) ==> events == old(events)
      ensures Died !in events[|old(events)|..]
      ensures old(InRange()) && amount >= 0.0 ==> InRange()
    {
      if !IsAlive() {
        assert events[|events|..] == [];
        return;
      }
      var previous := currentHealth;
      currentHealth := Min(currentHealth + amount, maxHealth);
      var gain := currentHealth - previous;
      if gain > 0.0 {
        events := events + [Healed(gain), HealthChanged(currentHealth, maxHealth)];
      }
    }

    /**
     * `SetHealth`: health becomes the value clamped to [0, max]; death is
     * signalled whenever the result is zero, even for an entity that was
     * already dead.
     */
    method SetHealth(value: real)
      modifies this`currentHealth, this`events
      ensures currentHealth == Clamp(value, 0.0, maxHealth)
      ensures InRange()
      ensures events == old(events) + [HealthChanged(currentHealth, maxHealth)] + (if value <= 0.0 then [Died] else [])
    {
      currentHealth := Clamp(value, 0.0, maxHealth);
      events := events + [HealthChanged(currentHealth, maxHealth)];
      if !IsAlive() {
        Die();
      }
    }

    /** `ResetHealth`: back to full health, announced. */
    method ResetHealth()
      modifies this`currentHealth, this`events
      ensures currentHealth == maxHealth && InRange() && IsAlive()
      ensures events == old(events) + [HealthChanged(maxHealth, maxHealth)]
    {
      currentHealth := maxHealth;
      events := events + [HealthChanged(currentHealth, maxHealth)];
    }

    method Die()
      modifies this`events
      ensures events == old(events) + [Died]
    {
      events := events + [Died];
    }
  }
}
