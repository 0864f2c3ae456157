/** Enemy spawning: which points a stage spawns at, which keep away from the
    player, which enemy types a level unlocks, the one-shot initial wave and
    the periodic single spawns, all bounded by the roster cap. Every random
    choice reads a sample from a `SpawnDraw`. */
module EnemySpawner {
  import opened Common
  import opened EnemyStats
  import opened Session
  import opened Store

  /** The per-stage fixed spawn points, present for stages 0, 1 and 2. */
  function FixedSpawnPoints(stage: StageId): Option<seq<Vec3>> {
    match stage
    case Stage0 => Some([Vec3(11.0, 0.3, 6.0), Vec3(-9.0, 0.3, 14.0), Vec3(-3.0, 0.3, -16.0)])
    case Stage1 => Some([Vec3(15.0, 0.3, 15.0), Vec3(-15.0, 0.3, 15.0), Vec3(15.0, 0.3, -15.0)])
    case Stage2 => Some([Vec3(0.0, 0.3, 0.0), Vec3(20.0, 0.3, 20.0), Vec3(-20.0, 0.3, -20.0)])
    case StageL => None
  }

  /** The stage table of candidate enemy spawn points. */
  function EnemySpawnPoints(stage: StageId): Option<seq<Vec3>> {
    match stage
    case Stage0 => Some([Vec3(10.0, 2.0, 10.0), Vec3(-10.0, 2.0, 10.0), Vec3(10.0, 2.0, -10.0),
                         Vec3(-10.0, 2.0, -10.0), Vec3(15.0, 2.0, 0.0), Vec3(-15.0, 2.0, 0.0),
                         Vec3(0.0, 2.0, 15.0), Vec3(0.0, 2.0, -15.0)])
    case Stage1 => Some([Vec3(15.0, 5.0, 15.0), Vec3(-15.0, 5.0, 15.0), Vec3(15.0, 5.0, -15.0),
                         Vec3(-15.0, 5.0, -15.0), Vec3(20.0, 5.0, 0.0), Vec3(-20.0, 5.0, 0.0)])
    case Stage2 => Some([Vec3(0.0, 2.0, 0.0), Vec3(20.0, 2.0, 20.0), Vec3(-20.0, 2.0, -20.0),
                         Vec3(30.0, 2.0, -30.0)])
    case StageL => Some([Vec3(10.0, 5.0, 10.0), Vec3(-10.0, 5.0, 10.0), Vec3(10.0, 5.0, -10.0),
                         Vec3(-10.0, 5.0, -10.0)])
  }

  predicate IsFixedStage(stage: StageId) {
    stage in [Stage0, Stage1, Stage2]
  }

  /** Fixed points first, then the stage table, then the stage-0 table.
      Every stage gets a non-empty list; the fixed stages get their three
      fixed points. */
  function StageSpawnPoints(stage: StageId): (pts: seq<Vec3>)
    ensures |pts| > 0
    ensures IsFixedStage(stage) ==> Some(pts) == FixedSpawnPoints(stage) && |pts| == 3
    ensures !IsFixedStage(stage) ==> Some(pts) == EnemySpawnPoints(stage)
  {
    match FixedSpawnPoints(stage)
    case Some(f) => f
    case None =>
      match EnemySpawnPoints(stage)
      case Some(t) => t
      case None => EnemySpawnPoints(Stage0).GetOr([])
  }

  /** `PLAYER_SPAWN_AVOID_DISTANCE` squared. */
  const AVOID_DISTANCE_SQ: real := 10.0 * 10.0

  /** At horizontal distance 10 or more from the player. */
  predicate IsFar(p: Vec3, player: Vec3) {
    SqDistXZ(p, player) >= AVOID_DISTANCE_SQ
  }

  function FarFrom(player: Vec3): Vec3 -> bool {
    (q: Vec3) => IsFar(q, player)
  }

  /** The far points when there are any, otherwise all of them: a sub-list
      of the input, non-empty exactly when the input is. */
  function SafePoints(points: seq<Vec3>, player: Vec3): (safe: seq<Vec3>)
    ensures forall q :: q in safe ==> q in points
    ensures |safe| > 0 <==> |points| > 0
    ensures (exists q :: q in points && IsFar(q, player)) ==>
      forall q :: q in safe <==> q in points && IsFar(q, player)
    ensures !(exists q :: q in points && IsFar(q, player)) ==> safe == points
  {
    var far := Filter(points, FarFrom(player));
    assert forall q :: q in far <==> q in points && IsFar(q, player);
    if |far| > 0 then
      assert far[0] in far;
      far
    else
      assert forall q :: q in points ==> q !in far;
      points
  }

  function SafeSpawnPoints(stage: StageId, player: Vec3): (safe: seq<Vec3>)
    ensures |safe| > 0
    ensures forall q :: q in safe ==> q in StageSpawnPoints(stage)
  {
    SafePoints(StageSpawnPoints(stage), player)
  }

  /** The order in which levels unlock enemy types. */
  const UnlockOrder: seq<EnemyType> := [Basic, Fast, Tank, Sniper]

  /** Levels 1 to 3 allow the first `level` types; any other level allows
      all four. */
  function AllowedEnemyTypes(level: int): (ts: seq<EnemyType>)
    ensures ts == UnlockOrder[..if 1 <= level <= 3 then level else 4]
    ensures Basic in ts && (Sniper in ts <==> !(1 <= level <= 3))
  {
    if level == 1 then [Basic]
    else if level == 2 then [Basic, Fast]
    else if level == 3 then [Basic, Fast, Tank]
    else [Basic, Fast, Tank, Sniper]
  }

  function RandomEnemyType(level: int, u: real): (t: EnemyType)
    requires IsSample(u)
    ensures t in AllowedEnemyTypes(level)
  {
    var ts := AllowedEnemyTypes(level);
    ts[PickIndex(u, |ts|)]
  }

  /** The random inputs one spawned enemy consumes: its id (built from the
      clock and a random string), the type sample and the point sample. */
  datatype SpawnDraw = SpawnDraw(id: string, typeSample: real, pointSample: real)

  predicate ValidDraws(ds: seq<SpawnDraw>) {
    forall k :: 0 <= k < |ds| ==> IsSample(ds[k].typeSample) && IsSample(ds[k].pointSample)
  }

  /** An enemy fresh from a spawn point: of a type the level allows, at
      full health. */
  predicate FreshFor(e: Enemy, level: int) {
    e.kind in AllowedEnemyTypes(level) && e.health == StatsOf(e.kind).maxHealth
  }

  function SpawnEnemy(point: Vec3, level: int, d: SpawnDraw): (e: Enemy)
    requires IsSample(d.typeSample)
    ensures FreshFor(e, level) && e.position == point && e.id == d.id
  {
    var t := RandomEnemyType(level, d.typeSample);
    Enemy(d.id, t, StatsOf(t).maxHealth, point)
  }

  function Positions(es: seq<Enemy>): (ps: seq<Vec3>)
    ensures |ps| == |es| && forall i :: 0 <= i < |es| ==> ps[i] == es[i].position
  {
    seq(|es|, i requires 0 <= i < |es| => es[i].position)
  }

  /** How many a wave may add to a roster of `count`: `want`, cut down so
      the roster does not pass the cap (none once it is at the cap). */
  function Room(want: int, count: int): int {
    Min(want, Max(0, MAX_ENEMIES - count))
  }

  /** Fixed stages: one enemy on each of the first three points, in order,
      skipping once the roster holds `MAX_ENEMIES`. */
  method FixedWave(points: seq<Vec3>, currentCount: int, level: int, draws: seq<SpawnDraw>)
    returns (batch: seq<Enemy>)
    requires |draws| >= 3 && ValidDraws(draws)
    ensures |batch| == Room(Min(3, |points|), currentCount)
    ensures forall i :: 0 <= i < |batch| ==> batch[i].position == points[i] && FreshFor(batch[i], level)
  {
    var head := points[..Min(3, |points|)];
    var count := currentCount;
    batch := [];
    var i := 0;
    while i < |head|
      invariant 0 <= i <= |head|
      invariant count == currentCount + |batch|
      invariant |batch| == Room(i, currentCount)
      invariant forall j :: 0 <= j < |batch| ==> batch[j].position == head[j] && FreshFor(batch[j], level)
    {
      if count < MAX_ENEMIES {
        batch := batch + [SpawnEnemy(head[i], level, draws[i])];
        count := count + 1;
      }
      i := i + 1;
    }
  }

  lemma MultisetSplice<T>(s: seq<T>, k: nat)
    requires k < |s|
    ensures multiset(s) == multiset(s[..k] + s[k + 1..]) + multiset{s[k]}
  {
    assert s == s[..k] + [s[k]] + s[k + 1..];
  }

  /** Taking the point at `index` out of the candidates and putting a fresh
      enemy on it keeps the points accounted for. */
  lemma TakePoint(batch: seq<Enemy>, available: seq<Vec3>, index: nat, e: Enemy)
    requires index < |available| && e.position == available[index]
    ensures multiset(Positions(batch + [e])) + multiset(available[..index] + available[index + 1..]) ==
      multiset(Positions(batch)) + multiset(available)
  {
    MultisetSplice(available, index);
    assert Positions(batch + [e]) == Positions(batch) + [e.position];
  }

  /** Other stages: up to two distinct safe points, each taken out of the
      candidates once chosen, stopping at the cap. */
  method RandomWave(safe: seq<Vec3>, currentCount: int, level: int, draws: seq<SpawnDraw>)
    returns (batch: seq<Enemy>)
    requires |draws| >= 2 && ValidDraws(draws)
    ensures |batch| == Room(Min(2, |safe|), currentCount)
    ensures multiset(Positions(batch)) <= multiset(safe)
    ensures forall i :: 0 <= i < |batch| ==> FreshFor(batch[i], level)
  {
    var desired := Min(2, |safe|);
    var available := safe;
    var count := currentCount;
    batch := [];
    var i := 0;
    while i < desired
      invariant 0 <= i <= desired
      invariant count == currentCount + |batch|
      invariant |batch| == Room(i, currentCount)
      invariant |available| == |safe| - |batch| && |batch| <= i
      invariant multiset(Positions(batch)) + multiset(available) == multiset(safe)
      invariant forall j :: 0 <= j < |batch| ==> FreshFor(batch[j], level)
    {
      if |available| == 0 || count >= MAX_ENEMIES {
        break;
      }
      var index := PickIndex(draws[i].pointSample, |available|);
      var point := available[index];
      var e := SpawnEnemy(point, level, draws[i]);
      TakePoint(batch, available, index, e);
      available := available[..index] + available[index + 1..];
      batch := batch + [e];
      count := count + 1;
      i := i + 1;
    }
  }

  /** The interval tick: nothing unless the phase (as last seen) is play
      and the roster is below the cap; then one enemy at a safe point. */
  function PeriodicSpawn(phase: Phase, roster: seq<Enemy>, stage: StageId, player: Vec3, level: int, d: SpawnDraw)
    : (e: Option<Enemy>)
    requires IsSample(d.typeSample) && IsSample(d.pointSample)
    ensures e.Some? <==> phase == Playing && |roster| < MAX_ENEMIES
    ensures e.Some? ==> e.value.position in SafeSpawnPoints(stage, player) && FreshFor(e.value, level)
  {
    if phase != Playing || |roster| >= MAX_ENEMIES then None
    else
      var safe := SafeSpawnPoints(stage, player);
      Some(SpawnEnemy(safe[PickIndex(d.pointSample, |safe|)], level, d))
  }

  /** The spawner component: its one-shot flag and its copy of the phase. */
  class Spawner {
    var hasInitialSpawn: bool
    var phaseRef: Phase

    constructor (phase: Phase)
      ensures !hasInitialSpawn && phaseRef == phase
    {
      hasInitialSpawn := false;
      phaseRef := phase;
    }

    method TrackPhase(phase: Phase)
      modifies this
      ensures phaseRef == phase && hasInitialSpawn == old(hasInitialSpawn)
    {
      phaseRef := phase;
    }

    /** Entering the menu or game over empties the roster and re-arms the
        initial wave. */
    method ResetOnPhase(store: GameStore)
      modifies this, store
      ensures phaseRef == old(phaseRef)
      ensures old(store.s.gameState) in {Menu, GameOver} ==>
        store.s == old(store.s).(enemies := []) && !hasInitialSpawn
      ensures old(store.s.gameState) !in {Menu, GameOver} ==>
        store.s == old(store.s) && hasInitialSpawn == old(hasInitialSpawn)
    {
      var gs := store.s.gameState;
      if gs == Menu || gs == GameOver {
        store.ClearEnemies();
        hasInitialSpawn := false;
      }
    }

    /** The initial wave, at most once per arming and only in play. */
    method InitialSpawn(store: GameStore, player: Vec3, draws: seq<SpawnDraw>)
      requires |draws| >= 3 && ValidDraws(draws)
      modifies this, store
      ensures phaseRef == old(phaseRef)
      ensures old(store.s.gameState) != Playing || old(hasInitialSpawn) ==>
        store.s == old(store.s) && hasInitialSpawn == old(hasInitialSpawn)
      ensures old(store.s.gameState) == Playing && !old(hasInitialSpawn) ==> hasInitialSpawn
      ensures exists added: seq<Enemy> ::
        store.s == old(store.s).(enemies := old(store.s.enemies) + added) &&
        |added| <= Room(3, |old(store.s.enemies)|) &&
        forall i :: 0 <= i < |added| ==> FreshFor(added[i], old(store.s.level))
    {
      if store.s.gameState != Playing || hasInitialSpawn {
        assert store.s == store.s.(enemies := store.s.enemies + []);
        return;
      }
      hasInitialSpawn := true;
      var stage := store.s.stageId;
      var points := StageSpawnPoints(stage);
      var level := store.s.level;
      var batch;
      if IsFixedStage(stage) {
        batch := FixedWave(points, |store.s.enemies|, level, draws);
      } else {
        batch := RandomWave(SafeSpawnPoints(stage, player), |store.s.enemies|, level, draws);
      }
      AddAll(store, batch);
    }

    /** One `addEnemy` per enemy, in order. */
    method AddAll(store: GameStore, batch: seq<Enemy>)
      modifies store
      ensures store.s == old(store.s).(enemies := old(store.s.enemies) + batch)
    {
      var i := 0;
      while i < |batch|
        invariant 0 <= i <= |batch|
        invariant store.s == old(store.s).(enemies := old(store.s.enemies) + batch[..i])
      {
        store.AddEnemy(batch[i]);
        assert batch[..i + 1] == batch[..i] + [batch[i]];
        i := i + 1;
      }
      assert batch[..i] == batch;
    }

    /** One interval tick: at most one enemy, never past the cap. */
    method IntervalTick(store: GameStore, player: Vec3, d: SpawnDraw)
      requires IsSample(d.typeSample) && IsSample(d.pointSample)
      modifies store
      ensures match PeriodicSpawn(phaseRef, old(store.s.enemies), old(store.s.stageId), player, old(store.s.level), d)
              case None => store.s == old(store.s)
              case Some(e) => store.s == old(store.s).(enemies := old(store.s.enemies) + [e])
    {
      var spawned := PeriodicSpawn(phaseRef, store.s.enemies, store.s.stageId, player, store.s.level, d);
      if spawned.Some? {
        store.AddEnemy(spawned.value);
      }
    }
  }
}
