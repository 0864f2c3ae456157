/** The shared store object the components call into: one mutable session
    state, and one method per action, each replacing the state by the
    action's result. */
module Store {
  import opened Common
  import opened Session
  import GameSlice
  import AmmoSlice
  import KeysSlice
  import EnemiesSlice
  import PlayerSlice
  import CameraSlice

  class GameStore {
    var s: State

    constructor ()
      ensures s == Initial()
    {
      s := Initial();
    }

    method SetGameState(phase: Phase)
      modifies this
      ensures s == GameSlice.SetGameState(old(s), phase)
    {
      s := GameSlice.SetGameState(s, phase);
    }

    method ResetGame(preserveStage: bool)
      modifies this
      ensures s == GameSlice.ResetGame(old(s), preserveStage)
    {
      s := GameSlice.ResetGame(s, preserveStage);
    }

    method AddScore(n: int)
      modifies this
      ensures s == GameSlice.AddScore(old(s), n)
    {
      s := GameSlice.AddScore(s, n);
    }

    method TakeDamage(damage: int, reason: Option<string>, time: Option<real>)
      modifies this
      ensures s == GameSlice.TakeDamage(old(s), damage, reason, time)
    {
      s := GameSlice.TakeDamage(s, damage, reason, time);
    }

    method Heal(amount: int)
      modifies this
      ensures s == GameSlice.Heal(old(s), amount)
    {
      s := GameSlice.Heal(s, amount);
    }

    /** A raw write of the reserve alone, as the ammo pickup does it. */
    method SetReserveAmmo(reserve: int)
      modifies this
      ensures s == old(s).(reserveAmmo := reserve)
    {
      s := s.(reserveAmmo := reserve);
    }

    method SetTotalKeys(t: int)
      modifies this
      ensures s == KeysSlice.SetTotalKeys(old(s), t)
    {
      s := KeysSlice.SetTotalKeys(s, t);
    }

    method CollectKey()
      modifies this
      ensures s == KeysSlice.CollectKey(old(s))
    {
      s := KeysSlice.CollectKey(s);
    }

    method ResetKeys()
      modifies this
      ensures s == KeysSlice.ResetKeys(old(s))
    {
      s := KeysSlice.ResetKeys(s);
    }

    method TriggerItemReset()
      modifies this
      ensures s == KeysSlice.TriggerItemReset(old(s))
    {
      s := KeysSlice.TriggerItemReset(s);
    }

    method AddEnemy(e: Enemy)
      modifies this
      ensures s == EnemiesSlice.AddEnemy(old(s), e)
    {
      s := EnemiesSlice.AddEnemy(s, e);
    }

    method RemoveEnemy(id: string)
      modifies this
      ensures s == EnemiesSlice.RemoveEnemy(old(s), id)
    {
      s := EnemiesSlice.RemoveEnemy(s, id);
    }

    method UpdateEnemyHealth(id: string, health: int)
      modifies this
      ensures s == EnemiesSlice.UpdateEnemyHealth(old(s), id, health)
    {
      s := EnemiesSlice.UpdateEnemyHealth(s, id, health);
    }

    method UpdateEnemyPosition(id: string, position: Vec3)
      modifies this
      ensures s == EnemiesSlice.UpdateEnemyPosition(old(s), id, position)
    {
      s := EnemiesSlice.UpdateEnemyPosition(s, id, position);
    }

    method ClearEnemies()
      modifies this
      ensures s == EnemiesSlice.ClearEnemies(old(s))
    {
      s := EnemiesSlice.ClearEnemies(s);
    }

    method RequestRespawn()
      modifies this
      ensures s == PlayerSlice.RequestRespawn(old(s))
    {
      s := PlayerSlice.RequestRespawn(s);
    }

    /** `setLastHeartSpawns`, which records where the hearts were placed. */
    method SetLastHeartSpawns(points: seq<Vec3>)
      modifies this
      ensures s == old(s).(lastHeartSpawns := points)
    {
      s := s.(lastHeartSpawns := points);
    }
  }
}
