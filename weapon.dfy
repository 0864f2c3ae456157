/** The player's pistol: fires on the press of the trigger at most once per
    0.2 s, keeps the live bullets in launch order, and drops each bullet
    three seconds after launch. Each bullet damages at most one enemy. */
module Weapon {
  import opened Common
  import opened EnemyStats
  import opened Session
  import GameSlice
  import EnemiesSlice
  import opened Store

  const PISTOL_DAMAGE: int := 1
  const PISTOL_FIRE_RATE: real := 0.2
  const BULLET_LIFETIME: real := 3.0
  const BULLET_RADIUS: real := 0.05

  /** A fired bullet: id, launch time and whether it has hit. Its start
      position and direction are not modelled. */
  datatype BulletData = BulletData(id: nat, createdAt: real, hasHit: bool)

  predicate Alive(b: BulletData, now: real) {
    now - b.createdAt <= BULLET_LIFETIME
  }

  function AliveAt(now: real): BulletData -> bool {
    (b: BulletData) => Alive(b, now)
  }

  /** The per-frame lifetime filter: exactly the bullets younger than the
      lifetime survive, in their order. */
  function LiveBullets(bullets: seq<BulletData>, now: real): (r: seq<BulletData>)
    ensures forall b :: b in r <==> b in bullets && now - b.createdAt <= BULLET_LIFETIME
    ensures |r| <= |bullets|
    ensures Subsequence(r, bullets)
    ensures forall b :: multiset(r)[b] == if now - b.createdAt <= BULLET_LIFETIME then multiset(bullets)[b] else 0
  {
    Filter(bullets, AliveAt(now))
  }

  /** The trigger fires on a rising edge of the button, once the fire-rate
      interval has passed since the last shot. */
  function Fires(isShooting: bool, prevShooting: bool, now: real, lastShot: real): (f: bool)
    ensures f ==> isShooting && !prevShooting
    ensures f ==> now - lastShot >= PISTOL_FIRE_RATE
    ensures isShooting && !prevShooting && now - lastShot >= PISTOL_FIRE_RATE ==> f
  {
    isShooting && !prevShooting && now - lastShot >= PISTOL_FIRE_RATE
  }

  /** The shots fired over a run of frames at `times` with the button held
      in every one of them, from the last shot time `lastShot` and the
      previous frame's button state `prev`: the trigger state each `Frame`
      keeps, stepped by its firing rule. */
  function HeldShots(times: seq<real>, lastShot: real, prev: bool): nat
    decreases |times|
  {
    if times == [] then 0
    else
      var fired := Fires(true, prev, times[0], lastShot);
      (if fired then 1 else 0) + HeldShots(times[1..], if fired then times[0] else lastShot, true)
  }

  /** Holding the button down fires at most once, however long it is held
      and however the frames are timed; with the button already down before
      the run, it fires not at all. */
  lemma {:induction false} HoldFiresOnce(times: seq<real>, lastShot: real, prev: bool)
    ensures HeldShots(times, lastShot, prev) <= 1
    ensures prev ==> HeldShots(times, lastShot, prev) == 0
    decreases |times|
  {
    if times != [] {
      var fired := Fires(true, prev, times[0], lastShot);
      HoldFiresOnce(times[1..], if fired then times[0] else lastShot, true);
    }
  }

  predicate IdsIncreasing(bs: seq<BulletData>) {
    forall i, j :: 0 <= i < j < |bs| ==> bs[i].id < bs[j].id
  }

  function BulletId(b: BulletData): int { b.id }

  /** The weapon component: its live bullets, its last shot time and the
      button state of the previous frame. `counter` is the module-wide
      bullet id counter. */
  class Weapon {
    var bullets: seq<BulletData>
    var lastShotTime: real
    var prevShooting: bool
    const counter: IdCounter

    /** Ids increase along the list and all come before the counter. */
    ghost predicate Valid()
      reads this, counter
    {
      IdsIncreasing(bullets) && forall b :: b in bullets ==> b.id < counter.next
    }

    constructor (counter: IdCounter)
      ensures bullets == [] && lastShotTime == 0.0 && !prevShooting && this.counter == counter
      ensures Valid()
    {
      bullets := [];
      lastShotTime := 0.0;
      prevShooting := false;
      this.counter := counter;
    }

    /** `shoot`: with the player and camera refs set, takes the next id and
        appends one unhit bullet; otherwise does nothing. */
    method Shoot(now: real, refsReady: bool)
      requires Valid()
      modifies this, counter
      ensures Valid()
      ensures lastShotTime == old(lastShotTime) && prevShooting == old(prevShooting)
      ensures refsReady ==> bullets == old(bullets) + [BulletData(old(counter.next), now, false)] &&
                            counter.next == old(counter.next) + 1
      ensures !refsReady ==> bullets == old(bullets) && counter.next == old(counter.next)
    {
      if !refsReady {
        return;
      }
      var id := counter.Take();
      bullets := bullets + [BulletData(id, now, false)];
    }

    /** One frame: drop the expired bullets, fire if the trigger says so
        (the shot time is recorded even when the refs were missing), and
        remember the button. */
    method Frame(now: real, isShooting: bool, refsReady: bool)
      requires Valid()
      modifies this, counter
      ensures Valid()
      ensures var fired := Fires(isShooting, old(prevShooting), now, old(lastShotTime));
        bullets == LiveBullets(old(bullets), now) +
                   (if fired && refsReady then [BulletData(old(counter.next), now, false)] else []) &&
        lastShotTime == (if fired then now else old(lastShotTime)) &&
        counter.next == old(counter.next) + (if fired && refsReady then 1 else 0)
      ensures prevShooting == isShooting
    {
      FilterKeepsIncreasing(bullets, AliveAt(now), BulletId);
      bullets := LiveBullets(bullets, now);
      if Fires(isShooting, prevShooting, now, lastShotTime) {
        Shoot(now, refsReady);
        lastShotTime := now;
      }
      prevShooting := isShooting;
    }
  }

  /** The index of the first enemy the bullet is close enough to hit. */
  function FirstHit(near: seq<bool>): (k: Option<nat>)
    ensures k.Some? ==> k.value < |near| && near[k.value] && forall j :: 0 <= j < k.value ==> !near[j]
    ensures k.None? ==> forall j :: 0 <= j < |near| ==> !near[j]
  {
    if near == [] then None
    else if near[0] then Some(0)
    else match FirstHit(near[1..])
      case None => None
      case Some(j) => Some(j + 1)
  }

  /** A hit: one point of damage, floored at zero, and the type's score
      when that brings the enemy to zero. */
  function Hit(s: State, e: Enemy): (r: State)
    ensures var h := Max(0, e.health - PISTOL_DAMAGE);
      r.enemies == EnemiesSlice.UpdateEnemyHealth(s, e.id, h).enemies &&
      r.score == (if h <= 0 then s.score + StatsOf(e.kind).scoreValue else s.score)
    ensures r == s.(enemies := r.enemies, score := r.score)
  {
    var h := Max(0, e.health - PISTOL_DAMAGE);
    var s1 := EnemiesSlice.UpdateEnemyHealth(s, e.id, h);
    if h <= 0 then GameSlice.AddScore(s1, StatsOf(e.kind).scoreValue) else s1
  }

  /** One bullet in flight. */
  class Bullet {
    var hasHit: bool
    var hasAppliedVelocity: bool

    constructor (data: BulletData)
      ensures hasHit == data.hasHit && !hasAppliedVelocity
    {
      hasHit := data.hasHit;
      hasAppliedVelocity := false;
    }

    /** One frame: velocity is applied on the first active frame only; the
        enemies (the roster as this bullet last saw it) are checked in
        order and the first one near enough (`near[i]`: distance below
        `BULLET_RADIUS + 0.5`) is hit, after which the bullet is spent. */
    method Frame(store: GameStore, mounted: bool, enemies: seq<Enemy>, near: seq<bool>)
      returns (applyVelocity: bool)
      requires |near| == |enemies|
      modifies this, store
      ensures applyVelocity <==> mounted && !old(hasHit) && !old(hasAppliedVelocity)
      ensures hasAppliedVelocity == (old(hasAppliedVelocity) || applyVelocity)
      ensures !mounted || old(hasHit) ==> store.s == old(store.s) && hasHit == old(hasHit)
      ensures mounted && !old(hasHit) ==>
        match FirstHit(near)
        case None => store.s == old(store.s) && !hasHit
        case Some(k) => store.s == Hit(old(store.s), enemies[k]) && hasHit
    {
      applyVelocity := false;
      if !mounted || hasHit {
        return;
      }
      if !hasAppliedVelocity {
        applyVelocity := true;
        hasAppliedVelocity := true;
      }
      var i := 0;
      while i < |enemies|
        invariant 0 <= i <= |enemies|
        invariant hasAppliedVelocity == (old(hasAppliedVelocity) || applyVelocity)
        invariant !hasHit ==> store.s == old(store.s) && forall j :: 0 <= j < i ==> !near[j]
        invariant hasHit ==> FirstHit(near).Some? && FirstHit(near).value < i &&
                             store.s == Hit(old(store.s), enemies[FirstHit(near).value])
      {
        if !hasHit && near[i] {
          var e := enemies[i];
          var newHealth := Max(0, e.health - PISTOL_DAMAGE);
          store.UpdateEnemyHealth(e.id, newHealth);
          if newHealth <= 0 {
            store.AddScore(StatsOf(e.kind).scoreValue);
          }
          hasHit := true;
        }
        i := i + 1;
      }
    }
  }
}
