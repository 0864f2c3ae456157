/** The keys slice: how many keys the stage has, how many the player holds,
    and the counter that asks every item spawner to start over. The two
    counting rules are shared with the standalone store. */
module KeysSlice {
  import opened Common
  import opened Session

  datatype KeyCount = KeyCount(total: int, collected: int)

  /** `setTotalKeys(t)`: a negative total counts as 0, and the collected
      count is cut down to the new total. */
  function WithTotal(collected: int, t: int): (k: KeyCount)
    ensures k.total == Max(0, t) && k.total >= 0
    ensures k.collected <= k.total
    ensures k.collected == collected || k.collected == k.total
    ensures k.collected == collected <==> collected <= k.total
  {
    var clamped := Max(0, t);
    KeyCount(clamped, Min(collected, clamped))
  }

  /** `collectKey`: one more key, never beyond the total. */
  function NextCollected(collected: int, total: int): (c: int)
    ensures collected < total ==> c == collected + 1
    ensures collected >= total ==> c == total
  {
    Min(total, collected + 1)
  }

  function SetTotalKeys(s: State, t: int): (r: State)
    ensures r.totalKeys == Max(0, t)
    ensures r.keysCollected == Min(s.keysCollected, r.totalKeys)
    ensures s.keysCollected >= 0 ==> KeysValid(r)
    ensures r == s.(totalKeys := r.totalKeys, keysCollected := r.keysCollected)
  {
    var k := WithTotal(s.keysCollected, t);
    s.(totalKeys := k.total, keysCollected := k.collected)
  }

  function CollectKey(s: State): (r: State)
    ensures r.keysCollected == NextCollected(s.keysCollected, s.totalKeys)
    ensures KeysValid(s) ==> KeysValid(r)
    ensures s.keysCollected == s.totalKeys ==> r == s
    ensures r == s.(keysCollected := r.keysCollected)
  {
    s.(keysCollected := NextCollected(s.keysCollected, s.totalKeys))
  }

  function ResetKeys(s: State): (r: State)
    ensures r.keysCollected == 0
    ensures r == s.(keysCollected := r.keysCollected)
  {
    s.(keysCollected := 0)
  }

  /** Asks every item spawner to respawn its items and forgets the keys held. */
  function TriggerItemReset(s: State): (r: State)
    ensures r.itemResetTrigger == s.itemResetTrigger + 1
    ensures r.keysCollected == 0
    ensures r == s.(itemResetTrigger := r.itemResetTrigger, keysCollected := r.keysCollected)
  {
    s.(itemResetTrigger := s.itemResetTrigger + 1, keysCollected := 0)
  }

  /** `n` successive `collectKey` calls. */
  function CollectN(s: State, n: nat): State {
    if n == 0 then s else CollectKey(CollectN(s, n - 1))
  }

  /** From no keys, `n` pickups leave `min(n, totalKeys)` keys held and
      change nothing else. */
  lemma {:induction false} CollectNFromZero(s: State, n: nat)
    requires s.keysCollected == 0 && s.totalKeys >= 0
    ensures CollectN(s, n).keysCollected == Min(n, s.totalKeys)
    ensures CollectN(s, n) == s.(keysCollected := Min(n, s.totalKeys))
  {
    if n > 0 {
      CollectNFromZero(s, n - 1);
    }
  }
}
