/** The key spawner: a few keys on distinct points of a fixed table,
    reshuffled when play (re)starts or items are reset. The store's key
    total is written from the number of keys, but only when that number
    changes: a regeneration of as many keys as before leaves the total as it
    was. */
module KeySpawner {
  import opened Common
  import opened Session
  import KeysSlice
  import opened Store
  import opened Collectibles
  import GameSlice
  import KeyholeGoal

  const KEY_SPAWN_POINTS: seq<Vec3> := [
    Vec3(4.0, 1.0, -6.0), Vec3(-8.0, 1.0, 12.0), Vec3(10.0, 1.0, 20.0), Vec3(-16.0, 1.0, 4.0),
    Vec3(6.0, 1.0, 32.0), Vec3(-18.0, 1.0, -10.0), Vec3(14.0, 1.0, -18.0), Vec3(22.0, 1.0, 8.0)
  ]

  const DEFAULT_KEY_COUNT: int := 3

  lemma KeyPointsDistinct()
    ensures Distinct(KEY_SPAWN_POINTS)
  {
  }

  /** `createSpawnSet(count)` on the key table: `count` clamped into 0 to 8 keys,
      uncollected, with distinct ids, on distinct table points. */
  method CreateKeySet(count: int, samples: seq<real>) returns (keys: seq<Pickup>)
    requires |samples| >= |KEY_SPAWN_POINTS| && AllSamples(samples)
    ensures |keys| == Max(0, Min(count, 8))
    ensures forall i :: 0 <= i < |keys| ==> !keys[i].collected && keys[i].id.kind == KeyItem
    ensures forall i, j :: 0 <= i < j < |keys| ==> keys[i].id != keys[j].id
    ensures forall i :: 0 <= i < |keys| ==> keys[i].position in KEY_SPAWN_POINTS
    ensures Distinct(ItemPositions(keys))
  {
    KeyPointsDistinct();
    keys := CreateSpawnSet(KeyItem, count, KEY_SPAWN_POINTS, samples);
    forall i | 0 <= i < |keys| ensures keys[i].position in KEY_SPAWN_POINTS {
      assert ItemPositions(keys)[i] in multiset(ItemPositions(keys));
    }
  }

  /** The store change made by the total-keys effect, which React runs again
      only when the number of keys `n` differs from the number `synced` it
      last ran with (negative before its first run). A re-run first runs the
      previous run's cleanup, which zeroes the total and the collected count,
      and then sets the total to `n`. */
  function TotalKeysSync(s: State, synced: int, n: nat): (r: State)
    ensures synced == n ==> r == s
    ensures synced != n ==> r.totalKeys == n
    ensures synced != n && synced >= 0 ==> r.keysCollected == 0
    ensures synced < 0 ==> r.keysCollected == Min(s.keysCollected, n)
    ensures r == s.(totalKeys := r.totalKeys, keysCollected := r.keysCollected)
  {
    if synced == n then s
    else if synced < 0 then KeysSlice.SetTotalKeys(s, n)
    else KeysSlice.SetTotalKeys(KeysSlice.ResetKeys(KeysSlice.SetTotalKeys(s, 0)), n)
  }

  class KeySpawner {
    var keys: seq<Pickup>
    /** The number of keys the total-keys effect last ran with; -1 before its
        first run. */
    var synced: int

    /** The first set is made when the spawner mounts. */
    constructor (count: int, samples: seq<real>)
      requires |samples| >= |KEY_SPAWN_POINTS| && AllSamples(samples)
      ensures |keys| == Max(0, Min(count, 8))
      ensures forall i :: 0 <= i < |keys| ==> !keys[i].collected
      ensures synced == -1
    {
      var k := CreateKeySet(count, samples);
      keys := k;
      synced := -1;
    }

    /** In play, a new set replaces the keys and the collected count goes
        back to zero; in any other phase nothing happens. */
    method RegenerateEffect(store: GameStore, count: int, samples: seq<real>)
      requires |samples| >= |KEY_SPAWN_POINTS| && AllSamples(samples)
      modifies this, store
      ensures synced == old(synced)
      ensures old(store.s).gameState != Playing ==> keys == old(keys) && store.s == old(store.s)
      ensures old(store.s).gameState == Playing ==>
        store.s == KeysSlice.ResetKeys(old(store.s)) &&
        |keys| == Max(0, Min(count, 8)) &&
        (forall i :: 0 <= i < |keys| ==> !keys[i].collected && keys[i].position in KEY_SPAWN_POINTS) &&
        Distinct(ItemPositions(keys))
    {
      if store.s.gameState != Playing {
        return;
      }
      keys := CreateKeySet(count, samples);
      store.ResetKeys();
    }

    /** The total-keys effect at a render: when the number of keys differs
        from the one it last ran with, the previous run's cleanup and then
        `setTotalKeys` with the new number; otherwise nothing. */
    method TotalKeysEffect(store: GameStore)
      modifies this, store
      ensures keys == old(keys) && synced == |keys|
      ensures store.s == TotalKeysSync(old(store.s), old(synced), |keys|)
      ensures old(synced) != |keys| ==> store.s.totalKeys == |keys|
      ensures old(synced) == |keys| ==> store.s == old(store.s)
    {
      if synced == |keys| {
        return;
      }
      if synced >= 0 {
        store.SetTotalKeys(0);
        store.ResetKeys();
      }
      store.SetTotalKeys(|keys|);
      synced := |keys|;
    }

    /** On unmount the total drops to zero and the count is reset. */
    method Cleanup(store: GameStore)
      modifies store
      ensures store.s == KeysSlice.ResetKeys(KeysSlice.SetTotalKeys(old(store.s), 0))
      ensures store.s.totalKeys == 0 && store.s.keysCollected == 0
    {
      store.SetTotalKeys(0);
      store.ResetKeys();
    }

    /** A regeneration in play followed by the total-keys effect, as the
        source runs them: none of the keys is collected, and the total counts
        the new keys only when their number differs from the one the effect
        last ran with; otherwise the old total stays. */
    method Regenerate(store: GameStore, count: int, samples: seq<real>)
      requires |samples| >= |KEY_SPAWN_POINTS| && AllSamples(samples)
      requires store.s.gameState == Playing
      modifies this, store
      ensures |keys| == Max(0, Min(count, 8)) && synced == |keys|
      ensures forall i :: 0 <= i < |keys| ==> !keys[i].collected
      ensures store.s == TotalKeysSync(KeysSlice.ResetKeys(old(store.s)), old(synced), |keys|)
      ensures store.s.keysCollected == 0
      ensures old(synced) != |keys| ==> store.s.totalKeys == |keys|
      ensures old(synced) == |keys| ==> store.s.totalKeys == old(store.s.totalKeys)
    {
      RegenerateEffect(store, count, samples);
      TotalKeysEffect(store);
    }

    /** The regeneration as the keyhole needs it: the total is set from the
        new key set together with the collected count, so the store counts
        exactly the keys on the map whatever their number was before. The
        effect's record moves along, so its next run changes nothing. */
    method RegenerateSynced(store: GameStore, count: int, samples: seq<real>)
      requires |samples| >= |KEY_SPAWN_POINTS| && AllSamples(samples)
      modifies this, store
      ensures old(store.s).gameState != Playing ==>
        keys == old(keys) && synced == old(synced) && store.s == old(store.s)
      ensures old(store.s).gameState == Playing ==>
        store.s == KeysSlice.SetTotalKeys(KeysSlice.ResetKeys(old(store.s)), |keys|) &&
        store.s.totalKeys == |keys| == Max(0, Min(count, 8)) && synced == |keys| &&
        store.s.keysCollected == 0 && KeysValid(store.s) &&
        (forall i :: 0 <= i < |keys| ==> !keys[i].collected)
    {
      if store.s.gameState != Playing {
        return;
      }
      RegenerateEffect(store, count, samples);
      store.SetTotalKeys(|keys|);
      synced := |keys|;
    }

    /** `handlePickup`: the key with the id is marked collected and the
        store counts one more key. */
    method HandlePickup(store: GameStore, id: ItemId)
      modifies this, store
      ensures keys == MarkCollected(old(keys), id)
      ensures store.s == KeysSlice.CollectKey(old(store.s))
    {
      keys := MarkCollected(keys, id);
      store.CollectKey();
    }

    /** A key's sensor: an uncollected key touched by the player is picked
        up; anything else is ignored. */
    method HandleEnter(store: GameStore, data: Pickup, otherIsPlayer: bool)
      modifies this, store
      ensures PicksUp(data.collected, otherIsPlayer) ==>
        keys == MarkCollected(old(keys), data.id) && store.s == KeysSlice.CollectKey(old(store.s))
      ensures !PicksUp(data.collected, otherIsPlayer) ==> keys == old(keys) && store.s == old(store.s)
    {
      if data.collected || !otherIsPlayer {
        return;
      }
      HandlePickup(store, data.id);
    }
  }

  /** A restart from the game-over screen keeps the spawner mounted, and its
      total-keys effect last ran for the default three keys. The reset sets
      the total to 1, the regeneration places three keys again, so the
      effect does not re-run: the total stays 1 and the first key picked up
      opens the goal. */
  lemma RestartKeepsStaleTotal(s: State)
    ensures var restarted := GameSlice.SetGameState(GameSlice.ResetGame(s, true), Playing);
      var r := TotalKeysSync(KeysSlice.ResetKeys(restarted), DEFAULT_KEY_COUNT, DEFAULT_KEY_COUNT);
      r.totalKeys == 1 && r.keysCollected == 0 &&
      KeyholeGoal.IsUnlocked(KeysSlice.CollectKey(r).keysCollected, r.totalKeys)
  {
  }

  /** With the total set from the new keys, a restart needs every key: from
      the regenerated state, picking up all `n` keys opens the goal and one
      fewer does not. */
  lemma {:induction false} SyncedRestartNeedsAllKeys(s: State, n: nat)
    requires 0 < n
    ensures var restarted := GameSlice.SetGameState(GameSlice.ResetGame(s, true), Playing);
      var r := KeysSlice.SetTotalKeys(KeysSlice.ResetKeys(restarted), n);
      r.totalKeys == n &&
      KeyholeGoal.IsUnlocked(KeysSlice.CollectN(r, n).keysCollected, KeysSlice.CollectN(r, n).totalKeys) &&
      !KeyholeGoal.IsUnlocked(KeysSlice.CollectN(r, n - 1).keysCollected, KeysSlice.CollectN(r, n - 1).totalKeys)
  {
    var restarted := GameSlice.SetGameState(GameSlice.ResetGame(s, true), Playing);
    var r := KeysSlice.SetTotalKeys(KeysSlice.ResetKeys(restarted), n);
    KeyholeGoal.CollectingAllOpens(r);
  }
}
