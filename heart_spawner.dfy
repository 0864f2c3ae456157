/** The heart spawner: on stage1, points drawn at random inside the map
    bounds, away from an excluded rectangle, from each other and from the
    keys; elsewhere, a shuffled fixed table. A heart picked up heals 25. */
module HeartSpawner {
  import opened Common
  import opened Session
  import GameSlice
  import opened Store
  import opened Collectibles

  /** The fixed tables exist for stage0 and stage1 only. */
  function HeartSpawnByStage(stage: StageId): Option<seq<Vec3>> {
    match stage
    case Stage0 => Some([Vec3(2.0, 1.0, 6.0), Vec3(-12.0, 1.0, 14.0), Vec3(8.0, 1.0, -14.0), Vec3(-20.0, 1.0, 2.0)])
    case Stage1 => Some([Vec3(18.0, 1.0, 24.0), Vec3(-6.0, 1.0, 28.0), Vec3(20.0, 1.0, -12.0), Vec3(-22.0, 1.0, -16.0)])
    case _ => None
  }

  const DEFAULT_HEART_COUNT: int := 2
  const HEAL_AMOUNT: int := 25

  datatype Rect = Rect(xMin: real, xMax: real, zMin: real, zMax: real)
  datatype Bounds = Bounds(xMin: real, xMax: real, zMin: real, zMax: real, yMin: real, yMax: real)

  const STAGE1_BOUNDS: Bounds := Bounds(-28.0, 28.0, -27.0, 27.0, -0.5, 1.0)
  const STAGE1_EXCLUDE: Rect := Rect(-12.0, -11.0, 23.0, 27.0)
  const STAGE1_MIN_DISTANCE: real := 1.8
  const MAX_ATTEMPTS: int := 1000

  /** Closed-rectangle membership on x and z. */
  predicate IsInsideExclude(x: real, z: real, ex: Rect) {
    ex.xMin <= x <= ex.xMax && ex.zMin <= z <= ex.zMax
  }

  /** `randBetween(lo, hi)` for the sample `u`: in `[lo, hi)` when `lo < hi`. */
  function RandBetween(u: real, lo: real, hi: real): (v: real)
    requires IsSample(u)
    ensures lo <= hi ==> lo <= v <= hi
    ensures lo < hi ==> v < hi
  {
    var d := hi - lo;
    ScaledSample(u, d);
    u * d + lo
  }

  lemma ScaledSample(u: real, d: real)
    requires IsSample(u)
    ensures d >= 0.0 ==> 0.0 <= u * d <= d
    ensures d > 0.0 ==> u * d < d
  {
    if d > 0.0 {
      assert (1.0 - u) * d > 0.0;
    }
  }

  /** A ground-plane distance below `d`, on the squared distance: never true for a
      non-positive `d`. */
  predicate CloserThan(sqDist: real, d: real) {
    d > 0.0 && sqDist < d * d
  }

  /** Whether some point lies strictly within `d` of `q` on the ground plane. */
  function AnyCloser(pts: seq<Vec3>, q: Vec3, d: real): (b: bool)
    ensures b <==> exists i :: 0 <= i < |pts| && CloserThan(SqDistXZ(pts[i], q), d)
  {
    if pts == [] then false
    else CloserThan(SqDistXZ(pts[0], q), d) || AnyCloser(pts[1..], q, d)
  }

  predicate InBox(p: Vec3, b: Bounds) {
    b.xMin <= p.x <= b.xMax && b.yMin <= p.y <= b.yMax && b.zMin <= p.z <= b.zMax
  }

  predicate Ordered(b: Bounds) {
    b.xMin <= b.xMax && b.yMin <= b.yMax && b.zMin <= b.zMax
  }

  /** `round1` applied to each coordinate; the rounding itself is left
      abstract. */
  function Rounded(p: Vec3, round1: real -> real): Vec3 {
    Vec3(round1(p.x), round1(p.y), round1(p.z))
  }

  /** `generateStage1Points`: rejection sampling. Each attempt draws x and
      z (and y only when the pair is outside `exclude`) from `rand`, in
      order. `raw` are the accepted samples before rounding: each lies
      outside the rectangle, is not nearer than 1.0 to a point accepted
      before it, nor nearer than `minDistance` to any of `otherPoints`. At
      most `count` points come out, after at most `maxAttempts` attempts,
      and fewer than `count` only when every attempt was used. */
  method GenerateStage1Points(count: int, bounds: Bounds, exclude: Rect, otherPoints: seq<Vec3>,
                              minDistance: real, maxAttempts: int, round1: real -> real, rand: seq<real>)
    returns (out: seq<Vec3>, ghost raw: seq<Vec3>, ghost attempts: nat)
    requires AllSamples(rand) && |rand| >= 3 * maxAttempts
    ensures |out| == |raw| <= Max(0, count)
    ensures attempts <= Max(0, maxAttempts) && |out| <= attempts
    ensures |out| < count ==> attempts == Max(0, maxAttempts)
    ensures forall i :: 0 <= i < |raw| ==> out[i] == Rounded(raw[i], round1)
    ensures forall i :: 0 <= i < |raw| ==> !IsInsideExclude(raw[i].x, raw[i].z, exclude)
    ensures forall i, j :: 0 <= j < i < |raw| ==> !CloserThan(SqDistXZ(out[j], raw[i]), 1.0)
    ensures forall i, k :: 0 <= i < |raw| && 0 <= k < |otherPoints| ==>
      !CloserThan(SqDistXZ(otherPoints[k], raw[i]), minDistance)
    ensures Ordered(bounds) ==> forall i :: 0 <= i < |raw| ==> InBox(raw[i], bounds)
  {
    out, raw := [], [];
    var tries: nat := 0;
    var c := 0;
    while |out| < count && tries < maxAttempts
      invariant tries <= Max(0, maxAttempts) && 0 <= c <= 3 * tries
      invariant |out| == |raw| <= tries && |out| <= Max(0, count)
      invariant forall i :: 0 <= i < |raw| ==> out[i] == Rounded(raw[i], round1)
      invariant forall i :: 0 <= i < |raw| ==> !IsInsideExclude(raw[i].x, raw[i].z, exclude)
      invariant forall i, j :: 0 <= j < i < |raw| ==> !CloserThan(SqDistXZ(out[j], raw[i]), 1.0)
      invariant forall i, k :: 0 <= i < |raw| && 0 <= k < |otherPoints| ==>
        !CloserThan(SqDistXZ(otherPoints[k], raw[i]), minDistance)
      invariant Ordered(bounds) ==> forall i :: 0 <= i < |raw| ==> InBox(raw[i], bounds)
      decreases maxAttempts - tries
    {
      tries := tries + 1;
      var x := RandBetween(rand[c], bounds.xMin, bounds.xMax);
      var z := RandBetween(rand[c + 1], bounds.zMin, bounds.zMax);
      c := c + 2;
      if IsInsideExclude(x, z, exclude) {
        continue;
      }
      var y := RandBetween(rand[c], bounds.yMin, bounds.yMax);
      c := c + 1;
      var q := Vec3(x, y, z);
      if AnyCloser(out, q, 1.0) {
        continue;
      }
      if AnyCloser(otherPoints, q, minDistance) {
        continue;
      }
      out := out + [Rounded(q, round1)];
      raw := raw + [q];
    }
    attempts := tries;
  }

  /** `getSpawnPointsForStage`: stage1 generates up to `num` points away from
      the keys' last spawns (at least 1.8 from each); any other stage takes
      the first `min(num, |table|)` of its shuffled table (stage0's when it
      has none), a negative count counting back from the end. */
  method GetSpawnPointsForStage(stage: StageId, num: int, lastKeySpawns: seq<Vec3>,
                                round1: real -> real, rand: seq<real>)
    returns (pts: seq<Vec3>)
    requires AllSamples(rand) && |rand| >= 3 * MAX_ATTEMPTS
    ensures stage == Stage1 ==> |pts| <= Max(0, num)
    ensures stage != Stage1 ==>
      var table := HeartSpawnByStage(stage).GetOr(HeartSpawnByStage(Stage0).value);
      |pts| == SliceEnd(Min(num, |table|), |table|) && multiset(pts) <= multiset(table)
  {
    if stage == Stage1 {
      ghost var raw, attempts;
      pts, raw, attempts := GenerateStage1Points(num, STAGE1_BOUNDS, STAGE1_EXCLUDE, lastKeySpawns,
                                                 STAGE1_MIN_DISTANCE, MAX_ATTEMPTS, round1, rand);
      return;
    }
    var table := HeartSpawnByStage(stage).GetOr(HeartSpawnByStage(Stage0).value);
    var shuffled := Shuffle(table, rand);
    var end := SliceEnd(Min(num, |table|), |table|);
    pts := shuffled[..end];
    assert shuffled == pts + shuffled[end..];
  }

  class HeartSpawner {
    var hearts: seq<Pickup>

    constructor (count: int, spawnPoints: seq<Vec3>, samples: seq<real>)
      requires |samples| >= |spawnPoints| && AllSamples(samples)
      ensures |hearts| == Max(0, Min(count, |spawnPoints|))
      ensures forall i :: 0 <= i < |hearts| ==> !hearts[i].collected
    {
      var h := CreateSpawnSet(HeartItem, count, spawnPoints, samples);
      hearts := h;
    }

    /** The spawn points the spawner computed are published to the store. */
    method PublishEffect(store: GameStore, spawnPoints: seq<Vec3>)
      modifies store
      ensures store.s == old(store.s).(lastHeartSpawns := spawnPoints)
    {
      store.SetLastHeartSpawns(spawnPoints);
    }

    /** In play: new points for the current stage, a new set of hearts on
        them, and the points published to the store. Outside play nothing
        happens. */
    method RegenerateEffect(store: GameStore, count: int, round1: real -> real, rand: seq<real>, samples: seq<real>)
      requires AllSamples(rand) && |rand| >= 3 * MAX_ATTEMPTS
      requires AllSamples(samples) && |samples| >= Max(0, count) && |samples| >= 4
      modifies this, store
      ensures old(store.s).gameState != Playing ==> hearts == old(hearts) && store.s == old(store.s)
      ensures old(store.s).gameState == Playing ==>
        store.s == old(store.s).(lastHeartSpawns := store.s.lastHeartSpawns) &&
        |hearts| == Max(0, Min(count, |store.s.lastHeartSpawns|)) &&
        multiset(ItemPositions(hearts)) <= multiset(store.s.lastHeartSpawns) &&
        forall i :: 0 <= i < |hearts| ==> !hearts[i].collected
    {
      if store.s.gameState != Playing {
        return;
      }
      var pts := GetSpawnPointsForStage(store.s.stageId, count, store.s.lastKeySpawns, round1, rand);
      var h := CreateSpawnSet(HeartItem, count, pts, samples);
      hearts := h;
      store.SetLastHeartSpawns(pts);
    }

    /** `handlePickup`: the heart with the id is marked collected and the
        player heals by 25. */
    method HandlePickup(store: GameStore, id: ItemId)
      modifies this, store
      ensures hearts == MarkCollected(old(hearts), id)
      ensures store.s == GameSlice.Heal(old(store.s), HEAL_AMOUNT)
    {
      hearts := MarkCollected(hearts, id);
      store.Heal(HEAL_AMOUNT);
    }

    method HandleEnter(store: GameStore, data: Pickup, otherIsPlayer: bool)
      modifies this, store
      ensures PicksUp(data.collected, otherIsPlayer) ==>
        hearts == MarkCollected(old(hearts), data.id) && store.s == GameSlice.Heal(old(store.s), HEAL_AMOUNT)
      ensures !PicksUp(data.collected, otherIsPlayer) ==> hearts == old(hearts) && store.s == old(store.s)
    {
      if data.collected || !otherIsPlayer {
        return;
      }
      HandlePickup(store, data.id);
    }
  }
}
