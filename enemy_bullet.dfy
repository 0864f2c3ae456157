/** An enemy bullet: spent by its first collision of any kind (damaging the
    player only if that is what it hit), expired ten seconds after launch,
    frozen while the game is not in play, and given its velocity once. */
module EnemyBullet {
  import opened Common
  import opened Session
  import GameSlice
  import opened Store

  const ENEMY_BULLET_LIFETIME: real := 10.0

  /** The death reason an enemy bullet records. */
  const BULLET_REASON: string := "Enemy:sniper:bullet"

  class EnemyBullet {
    const id: nat
    const createdAt: real
    const damage: int
    var hasHit: bool
    var isExpired: bool
    var hasAppliedVelocity: bool

    constructor (id: nat, createdAt: real, damage: int)
      ensures this.id == id && this.createdAt == createdAt && this.damage == damage
      ensures !hasHit && !isExpired && !hasAppliedVelocity
    {
      this.id := id;
      this.createdAt := createdAt;
      this.damage := damage;
      hasHit := false;
      isExpired := false;
      hasAppliedVelocity := false;
    }

    /** The bullet has hit something or run out of time. */
    predicate Gone()
      reads this
    {
      hasHit || isExpired
    }

    /** `handleCollision`: a spent bullet ignores further contacts; a live
        one damages the player (with reason, and the wall-clock time in
        seconds) only when the other body is the player, and is spent by
        any contact. */
    method HandleCollision(store: GameStore, otherIsPlayer: bool, wallSeconds: real)
      modifies this, store
      ensures isExpired == old(isExpired) && hasAppliedVelocity == old(hasAppliedVelocity)
      ensures old(hasHit) ==> store.s == old(store.s) && hasHit
      ensures !old(hasHit) && otherIsPlayer ==>
        store.s == GameSlice.TakeDamage(old(store.s), damage, Some(BULLET_REASON), Some(wallSeconds))
      ensures !old(hasHit) && !otherIsPlayer ==> store.s == old(store.s)
      ensures hasHit
    {
      if hasHit {
        return;
      }
      if otherIsPlayer {
        store.TakeDamage(damage, Some(BULLET_REASON), Some(wallSeconds));
      }
      hasHit := true;
    }

    /** One frame: nothing outside play, with the body missing, or once
        spent; otherwise expire when older than the lifetime, else apply the
        velocity if it has not been applied yet. */
    method Frame(phase: Phase, mounted: bool, now: real) returns (applyVelocity: bool)
      modifies this
      ensures hasHit == old(hasHit)
      ensures var active := phase == Playing && mounted && !old(hasHit) && !old(isExpired);
        isExpired == (old(isExpired) || (active && now - createdAt > ENEMY_BULLET_LIFETIME)) &&
        applyVelocity == (active && now - createdAt <= ENEMY_BULLET_LIFETIME && !old(hasAppliedVelocity)) &&
        hasAppliedVelocity == (old(hasAppliedVelocity) || applyVelocity)
    {
      applyVelocity := false;
      if phase != Playing {
        return;
      }
      if !mounted || hasHit || isExpired {
        return;
      }
      if now - createdAt > ENEMY_BULLET_LIFETIME {
        isExpired := true;
        return;
      }
      if !hasAppliedVelocity {
        applyVelocity := true;
        hasAppliedVelocity := true;
      }
    }

    /** The removal effect: the bullet's id is reported for removal once it is gone; a gone
        bullet renders nothing. */
    method ExpireEffect() returns (expired: Option<nat>)
      ensures expired == if Gone() then Some(id) else None
    {
      expired := if hasHit || isExpired then Some(id) else None;
    }
  }
}
