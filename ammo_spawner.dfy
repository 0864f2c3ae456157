/** The ammunition spawner: one item every 15 seconds of play and one per
    five kills since the last kill spawn, each at a random entry of a fixed
    list of positions and with an id from a module-wide counter. Entering
    play clears the items and both timers. */
module AmmoSpawner {
  import opened Common

  const AMMO_SPAWN_INTERVAL: real := 15.0
  const AMMO_SPAWN_PER_KILLS: int := 5

  const AMMO_SPAWN_POSITIONS: seq<Vec3> := [
    Vec3(10.0, 2.0, 10.0), Vec3(-10.0, 2.0, 10.0), Vec3(10.0, 2.0, -10.0),
    Vec3(-10.0, 2.0, -10.0), Vec3(0.0, 2.0, 15.0), Vec3(0.0, 2.0, -15.0)
  ]

  /** An item on the map: `ammo-<n>` and its position. */
  datatype AmmoData = AmmoData(id: nat, position: Vec3)

  function AmmoId(a: AmmoData): int { a.id }

  function OtherThan(id: nat): AmmoData -> bool {
    (a: AmmoData) => a.id != id
  }

  /** The time rule: a spawn once the interval has passed since the last. */
  predicate TimeSpawnDue(now: real, lastTimeSpawn: real) {
    now - lastTimeSpawn >= AMMO_SPAWN_INTERVAL
  }

  /** The kill rule: a spawn once five kills have been made since the last. */
  predicate KillSpawnDue(kills: int, lastKillCount: int) {
    kills - lastKillCount >= AMMO_SPAWN_PER_KILLS
  }

  class AmmoSpawner {
    var ammos: seq<AmmoData>
    var lastTimeSpawn: real
    var lastKillCount: int
    const counter: IdCounter

    /** Ids increase along the list and all come before the counter, so no
        two items share an id. */
    ghost predicate Valid()
      reads this, counter
    {
      (forall i, j :: 0 <= i < j < |ammos| ==> ammos[i].id < ammos[j].id) &&
      forall a :: a in ammos ==> a.id < counter.next
    }

    constructor (counter: IdCounter)
      ensures ammos == [] && lastTimeSpawn == 0.0 && lastKillCount == 0 && this.counter == counter
      ensures Valid()
    {
      ammos := [];
      lastTimeSpawn := 0.0;
      lastKillCount := 0;
      this.counter := counter;
    }

    /** Entering play resets both timers and removes every item. */
    method PhaseEffect(phase: Phase)
      modifies this
      ensures phase == Playing ==> ammos == [] && lastTimeSpawn == 0.0 && lastKillCount == 0
      ensures phase != Playing ==>
        ammos == old(ammos) && lastTimeSpawn == old(lastTimeSpawn) && lastKillCount == old(lastKillCount)
    {
      if phase == Playing {
        lastTimeSpawn := 0.0;
        lastKillCount := 0;
        ammos := [];
      }
    }

    /** `spawnAmmo`: exactly one new item, with the next id, at the
        position the sample picks. */
    method SpawnAmmo(u: real)
      requires Valid() && IsSample(u)
      modifies this, counter
      ensures Valid()
      ensures ammos == old(ammos) + [AmmoData(old(counter.next), AMMO_SPAWN_POSITIONS[PickIndex(u, |AMMO_SPAWN_POSITIONS|)])]
      ensures counter.next == old(counter.next) + 1
      ensures lastTimeSpawn == old(lastTimeSpawn) && lastKillCount == old(lastKillCount)
    {
      var position := AMMO_SPAWN_POSITIONS[PickIndex(u, |AMMO_SPAWN_POSITIONS|)];
      var id := counter.Take();
      ammos := ammos + [AmmoData(id, position)];
    }

    /** One frame: in play, a spawn when the interval has passed, and the
        time of that spawn remembered. */
    method Frame(phase: Phase, now: real, u: real)
      requires Valid() && IsSample(u)
      modifies this, counter
      ensures Valid() && lastKillCount == old(lastKillCount)
      ensures var spawns := phase == Playing && TimeSpawnDue(now, old(lastTimeSpawn));
        (spawns ==> ammos == old(ammos) + [AmmoData(old(counter.next), AMMO_SPAWN_POSITIONS[PickIndex(u, 6)])] &&
                    counter.next == old(counter.next) + 1 && lastTimeSpawn == now) &&
        (!spawns ==> ammos == old(ammos) && counter.next == old(counter.next) && lastTimeSpawn == old(lastTimeSpawn))
    {
      if phase != Playing {
        return;
      }
      if TimeSpawnDue(now, lastTimeSpawn) {
        SpawnAmmo(u);
        lastTimeSpawn := now;
      }
    }

    /** The kill-count effect: in play, one spawn (however many kills were
        made) when five or more were made since the last kill spawn. */
    method KillEffect(phase: Phase, kills: int, u: real)
      requires Valid() && IsSample(u)
      modifies this, counter
      ensures Valid() && lastTimeSpawn == old(lastTimeSpawn)
      ensures var spawns := phase == Playing && KillSpawnDue(kills, old(lastKillCount));
        (spawns ==> ammos == old(ammos) + [AmmoData(old(counter.next), AMMO_SPAWN_POSITIONS[PickIndex(u, 6)])] &&
                    counter.next == old(counter.next) + 1 && lastKillCount == kills) &&
        (!spawns ==> ammos == old(ammos) && counter.next == old(counter.next) && lastKillCount == old(lastKillCount))
    {
      if phase != Playing {
        return;
      }
      if KillSpawnDue(kills, lastKillCount) {
        SpawnAmmo(u);
        lastKillCount := kills;
      }
    }

    /** `handleCollect`: the item with the id goes, the others stay in
        their order. */
    method HandleCollect(id: nat)
      requires Valid()
      modifies this
      ensures Valid()
      ensures ammos == Filter(old(ammos), OtherThan(id))
      ensures forall a :: a in ammos <==> a in old(ammos) && a.id != id
      ensures lastTimeSpawn == old(lastTimeSpawn) && lastKillCount == old(lastKillCount)
    {
      FilterKeepsIncreasing(ammos, OtherThan(id), AmmoId);
      ammos := Filter(ammos, OtherThan(id));
    }
  }

  /** The spawn times over a run of frames, starting from the last spawn
      time `last`. */
  function TimeSpawns(nows: seq<real>, last: real): seq<real> {
    if nows == [] then []
    else if TimeSpawnDue(nows[0], last) then [nows[0]] + TimeSpawns(nows[1..], nows[0])
    else TimeSpawns(nows[1..], last)
  }

  /** In play, timed spawns are at least 15 seconds apart, whatever the
      frame times. */
  lemma {:induction false} TimeSpawnsSpacedOut(nows: seq<real>, last: real)
    ensures var ts := TimeSpawns(nows, last);
      (|ts| > 0 ==> ts[0] - last >= AMMO_SPAWN_INTERVAL) &&
      forall i :: 0 < i < |ts| ==> ts[i] - ts[i - 1] >= AMMO_SPAWN_INTERVAL
  {
    if nows != [] {
      var ts := TimeSpawns(nows, last);
      if TimeSpawnDue(nows[0], last) {
        TimeSpawnsSpacedOut(nows[1..], nows[0]);
        var rest := TimeSpawns(nows[1..], nows[0]);
        assert ts == [nows[0]] + rest;
        forall i | 0 < i < |ts| ensures ts[i] - ts[i - 1] >= AMMO_SPAWN_INTERVAL {
          if i == 1 {
            assert ts[1] == rest[0];
          } else {
            assert ts[i] == rest[i - 1] && ts[i - 1] == rest[i - 2];
          }
        }
      } else {
        TimeSpawnsSpacedOut(nows[1..], last);
      }
    }
  }
}
