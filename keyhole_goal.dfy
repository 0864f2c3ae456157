/** The keyhole goal: it opens once every key of the stage is held, and
    touching the open goal sends the player to the goal page. */
module KeyholeGoal {
  import opened Common
  import opened Session
  import KeysSlice
  import opened Store

  /** Open when the stage has keys and all of them are held. */
  predicate IsUnlocked(collected: int, total: int) {
    collected >= total && total > 0
  }

  /** `handleEnter`: navigation is asked for exactly when the player
      touches the open goal; the store is only read. */
  method HandleEnter(store: GameStore, otherIsPlayer: bool) returns (navigate: bool)
    ensures navigate <==> otherIsPlayer && store.s.totalKeys > 0 && store.s.keysCollected >= store.s.totalKeys
  {
    navigate := otherIsPlayer && IsUnlocked(store.s.keysCollected, store.s.totalKeys);
  }

  /** A stage without keys never opens. */
  lemma {:induction false} NoKeysMeansLocked(collected: int)
    ensures !IsUnlocked(collected, 0)
  {
  }

  /** Under the key invariant, the goal is open exactly when the count has
      reached a positive total. */
  lemma {:induction false} UnlockedIffAllHeld(s: State)
    requires KeysValid(s)
    ensures IsUnlocked(s.keysCollected, s.totalKeys) <==> s.totalKeys > 0 && s.keysCollected == s.totalKeys
  {
  }

  /** From no keys held, picking up as many keys as the stage has opens the
      goal, and one fewer leaves it shut. */
  lemma {:induction false} CollectingAllOpens(s: State)
    requires s.keysCollected == 0 && s.totalKeys > 0
    ensures IsUnlocked(KeysSlice.CollectN(s, s.totalKeys).keysCollected, KeysSlice.CollectN(s, s.totalKeys).totalKeys)
    ensures !IsUnlocked(KeysSlice.CollectN(s, s.totalKeys - 1).keysCollected, KeysSlice.CollectN(s, s.totalKeys - 1).totalKeys)
  {
    KeysSlice.CollectNFromZero(s, s.totalKeys);
    KeysSlice.CollectNFromZero(s, s.totalKeys - 1);
  }
}
