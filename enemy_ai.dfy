/** One enemy's behaviour each frame: idle out of detection range, chase
    inside it, stand and strike inside attack range, at most one strike per
    second. Distances are compared squared: `|p - q| < r` is
    `SqDist3(p, q) < r * r` for a positive range `r`. */
module EnemyAI {
  import opened Common
  import opened EnemyStats
  import opened Session
  import GameSlice
  import EnemiesSlice
  import opened Store

  /** Seconds between two strikes of one enemy. */
  const ATTACK_COOLDOWN: real := 1.0

  datatype Behaviour = Idle | Hold | Chase

  /** `distance < range`, on the squared distance. */
  predicate Within(sqDist: real, range: real) {
    sqDist < range * range
  }

  /** Idle outside detection range; inside it, hold inside attack range and
      chase otherwise. */
  function Decide(sqDist: real, st: Stats): (b: Behaviour)
    ensures b == Idle <==> !Within(sqDist, st.detectionRange)
    ensures b == Hold <==> Within(sqDist, st.detectionRange) && Within(sqDist, st.attackRange)
    ensures b == Chase <==> Within(sqDist, st.detectionRange) && !Within(sqDist, st.attackRange)
  {
    if !Within(sqDist, st.detectionRange) then Idle
    else if Within(sqDist, st.attackRange) then Hold
    else Chase
  }

  /** Because every type's attack range is inside its detection range, a
      player within attack range is always within detection range. */
  lemma {:induction false} AttackRangeInsideDetection(sqDist: real, t: EnemyType)
    requires Within(sqDist, StatsOf(t).attackRange)
    ensures Decide(sqDist, StatsOf(t)) == Hold
  {
    var st := StatsOf(t);
    assert st.attackRange * st.attackRange < st.detectionRange * st.detectionRange by {
      assert 0.0 < st.attackRange < st.detectionRange;
    }
  }

  /** What one frame does: the new body velocity, the moving flag, whether
      the model is turned to the player, whether a strike lands, and the
      last strike time afterwards. */
  datatype FrameOut = FrameOut(velocity: Vec3, moving: bool, turns: bool, strikes: bool, lastAttack: real)

  /** `dirX`, `dirZ` is the normalised horizontal direction to the player
      and `vy` the body's current vertical speed, which is always kept. */
  function Step(sqDist: real, st: Stats, vy: real, dirX: real, dirZ: real, now: real, lastAttack: real)
    : (o: FrameOut)
    ensures o.velocity.y == vy
    ensures o.moving <==> Decide(sqDist, st) == Chase
    ensures o.turns <==> Decide(sqDist, st) != Idle
    ensures o.strikes <==> Decide(sqDist, st) == Hold && now - lastAttack >= ATTACK_COOLDOWN
    ensures o.lastAttack == if o.strikes then now else lastAttack
    ensures Decide(sqDist, st) != Chase ==> o.velocity.x == 0.0 && o.velocity.z == 0.0
    ensures Decide(sqDist, st) == Chase ==> o.velocity == Vec3(dirX * st.speed, vy, dirZ * st.speed)
  {
    match Decide(sqDist, st)
    case Idle => FrameOut(Vec3(0.0, vy, 0.0), false, false, false, lastAttack)
    case Hold =>
      var strike := now - lastAttack >= ATTACK_COOLDOWN;
      FrameOut(Vec3(0.0, vy, 0.0), false, true, strike, if strike then now else lastAttack)
    case Chase => FrameOut(Vec3(dirX * st.speed, vy, dirZ * st.speed), true, true, false, lastAttack)
  }

  /** The inputs of one frame for one enemy. */
  datatype FrameIn = FrameIn(sqDist: real, vy: real, dirX: real, dirZ: real, now: real)

  /** The strike times over a run of frames, starting from last strike time
      `last`. */
  function StrikeTimes(frames: seq<FrameIn>, st: Stats, last: real): seq<real> {
    if frames == [] then []
    else
      var f := frames[0];
      var o := Step(f.sqDist, st, f.vy, f.dirX, f.dirZ, f.now, last);
      (if o.strikes then [f.now] else []) + StrikeTimes(frames[1..], st, o.lastAttack)
  }

  /** Whatever the frames, one enemy's strikes are at least a second apart
      (and the first is at least a second after `last`). */
  lemma {:induction false} StrikesSpacedOut(frames: seq<FrameIn>, st: Stats, last: real)
    ensures var ts := StrikeTimes(frames, st, last);
      (|ts| > 0 ==> ts[0] - last >= ATTACK_COOLDOWN) &&
      forall i :: 0 < i < |ts| ==> ts[i] - ts[i - 1] >= ATTACK_COOLDOWN
  {
    if frames != [] {
      var f := frames[0];
      var o := Step(f.sqDist, st, f.vy, f.dirX, f.dirZ, f.now, last);
      StrikesSpacedOut(frames[1..], st, o.lastAttack);
      var rest := StrikeTimes(frames[1..], st, o.lastAttack);
      var ts := StrikeTimes(frames, st, last);
      if o.strikes {
        assert ts == [f.now] + rest;
        forall i | 0 < i < |ts| ensures ts[i] - ts[i - 1] >= ATTACK_COOLDOWN {
          if i == 1 {
            assert ts[1] == rest[0] && ts[0] == f.now;
          } else {
            assert ts[i] == rest[i - 1] && ts[i - 1] == rest[i - 2];
          }
        }
      } else {
        assert ts == rest;
      }
    }
  }

  /** One mounted enemy: its last strike time (initially 0). */
  class EnemyController {
    const id: string
    const kind: EnemyType
    var lastAttackTime: real

    constructor (id: string, kind: EnemyType)
      ensures this.id == id && this.kind == kind && lastAttackTime == 0.0
    {
      this.id := id;
      this.kind := kind;
      lastAttackTime := 0.0;
    }

    /** One frame: a strike damages the player by the type's damage, with no reason and no
        time, and the body position is written back to the roster every
        frame, in every phase. */
    method Frame(store: GameStore, position: Vec3, player: Vec3, vy: real, dirX: real, dirZ: real, now: real)
      returns (velocity: Vec3, moving: bool)
      modifies this, store
      ensures var o := Step(SqDist3(position, player), StatsOf(kind), vy, dirX, dirZ, now, old(lastAttackTime));
        velocity == o.velocity && moving == o.moving && lastAttackTime == o.lastAttack &&
        store.s == EnemiesSlice.UpdateEnemyPosition(
          if o.strikes then GameSlice.TakeDamage(old(store.s), StatsOf(kind).damage, None, None) else old(store.s),
          id, position)
    {
      var o := Step(SqDist3(position, player), StatsOf(kind), vy, dirX, dirZ, now, lastAttackTime);
      if o.strikes {
        store.TakeDamage(StatsOf(kind).damage, None, None);
      }
      lastAttackTime := o.lastAttack;
      store.UpdateEnemyPosition(id, position);
      velocity, moving := o.velocity, o.moving;
    }
  }

  /** A lethal strike records the death with reason "Unknown" and no time. */
  lemma StrikeDeathIsUnknown(s: State, t: EnemyType)
    requires GameSlice.DamagedHP(s.playerHP, StatsOf(t).damage) == 0
    ensures GameSlice.TakeDamage(s, StatsOf(t).damage, None, None).deathReason == Some("Unknown")
    ensures GameSlice.TakeDamage(s, StatsOf(t).damage, None, None).deathTime == None
  {
  }

  /** An enemy whose health has reached zero takes itself off the roster. */
  method DeathEffect(store: GameStore, e: Enemy)
    modifies store
    ensures store.s == if e.health <= 0 then EnemiesSlice.RemoveEnemy(old(store.s), e.id) else old(store.s)
  {
    if e.health <= 0 {
      store.RemoveEnemy(e.id);
    }
  }
}
