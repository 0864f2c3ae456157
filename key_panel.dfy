/** The key panel of the HUD: the objective line and the pickup sound,
    which plays when the held-key count goes up. */
module KeyPanel {
  import KeyholeGoal

  const FIND_GOAL: string := "ゴールを探せ"
  const FIND_KEYS: string := "鍵を探せ"

  /** "Find the goal" once every key is held, "find the keys" before. */
  function ObjectiveText(total: int, collected: int): (t: string)
    ensures t == FIND_GOAL <==> total > 0 && collected >= total
    ensures t == FIND_KEYS <==> !(total > 0 && collected >= total)
  {
    if total > 0 && collected >= total then FIND_GOAL else FIND_KEYS
  }

  /** The objective and the goal agree: the panel says to look for the goal
      exactly when the goal is open. */
  lemma {:induction false} ObjectiveMatchesGoal(total: int, collected: int)
    ensures ObjectiveText(total, collected) == FIND_GOAL <==> KeyholeGoal.IsUnlocked(collected, total)
  {
    assert FIND_GOAL != FIND_KEYS by {
      assert FIND_GOAL[0] != FIND_KEYS[0];
    }
  }

  /** The count last seen by the sound effect. */
  class KeyPanel {
    var prevKeys: int

    constructor (keysCollected: int)
      ensures prevKeys == keysCollected
    {
      prevKeys := keysCollected;
    }

    /** On each change of the count: without a loaded sound nothing happens
        (the baseline is not updated either); with one, the sound plays on a
        strict rise and the new count becomes the baseline, so a reset to
        zero is silent. */
    method KeysEffect(keysCollected: int, audioReady: bool) returns (play: bool)
      modifies this
      ensures play <==> audioReady && keysCollected > old(prevKeys)
      ensures prevKeys == if audioReady then keysCollected else old(prevKeys)
    {
      play := false;
      if !audioReady {
        return;
      }
      if keysCollected > prevKeys {
        play := true;
      }
      prevKeys := keysCollected;
    }
  }
}
