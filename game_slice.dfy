/** The game slice of the store: phase, stage, level, score, kill count,
    health, death record, clear flag and the whole-session reset. Each
    action is a total function from the old state to the new one. */
module GameSlice {
  import opened Common
  import opened Session

  function SetGameState(s: State, phase: Phase): (r: State)
    ensures r.gameState == phase
    ensures r == s.(gameState := r.gameState)
  {
    s.(gameState := phase)
  }

  /** Choosing a stage also zeroes the key progress of the previous one. */
  function SetStageId(s: State, stage: StageId): (r: State)
    ensures r.stageId == stage && r.keysCollected == 0 && r.totalKeys == 0
    ensures KeysValid(r)
    ensures r == s.(stageId := r.stageId, keysCollected := r.keysCollected, totalKeys := r.totalKeys)
  {
    s.(stageId := stage, keysCollected := 0, totalKeys := 0)
  }

  /** The level rounded down and clamped into 1 to 4. */
  function ClampLevel(level: real): (l: int)
    ensures 1 <= l <= 4
    ensures 1 <= level.Floor <= 4 ==> l == level.Floor
    ensures level.Floor < 1 ==> l == 1
    ensures level.Floor > 4 ==> l == 4
  {
    Max(1, Min(4, level.Floor))
  }

  /** The level is always a whole number from 1 to 4. */
  function SetLevel(s: State, level: real): (r: State)
    ensures LevelValid(r)
    ensures 1 <= level.Floor <= 4 ==> r.level == level.Floor
    ensures r == s.(level := r.level)
  {
    s.(level := ClampLevel(level))
  }

  function AddScore(s: State, n: int): (r: State)
    ensures r.score - s.score == n
    ensures r == s.(score := r.score)
  {
    s.(score := s.score + n)
  }

  function ResetScore(s: State): (r: State)
    ensures r.score == 0
    ensures r == s.(score := r.score)
  {
    s.(score := 0)
  }

  /** One more kill. The source's fallback for a missing count only ever
      replaces 0 by 0, so it never changes the result for a number. */
  function IncrementKillCount(s: State): (r: State)
    ensures r.enemyKillCount == s.enemyKillCount + 1
    ensures r == s.(enemyKillCount := r.enemyKillCount)
  {
    s.(enemyKillCount := s.enemyKillCount + 1)
  }

  /** Health after taking `damage`: clamped at zero, and otherwise exactly
      `damage` less. */
  function DamagedHP(hp: int, damage: int): (h: int)
    ensures h >= 0
    ensures h == 0 || h == hp - damage
    ensures h == 0 <==> hp <= damage
    ensures damage >= 0 && hp >= 0 ==> h <= hp
  {
    Max(0, hp - damage)
  }

  /** Health after healing: capped at the maximum, and otherwise exactly
      `amount` more. */
  function HealedHP(hp: int, maxHP: int, amount: int): (h: int)
    ensures h <= maxHP
    ensures h == maxHP || h == hp + amount
    ensures h == hp + amount <==> hp + amount <= maxHP
    ensures amount >= 0 && hp <= maxHP ==> hp <= h
  {
    Min(maxHP, hp + amount)
  }

  /** A blow that leaves health above zero touches only the health (and
      clears `isClear`); a lethal one, whatever the phase and even when the
      player is already at zero, ends the game and overwrites the death
      record with the given reason (default "Unknown"), the given time and
      the keys held. */
  function TakeDamage(s: State, damage: int, reason: Option<string>, time: Option<real>): (r: State)
    ensures r.playerHP == DamagedHP(s.playerHP, damage)
    ensures !r.isClear
    ensures r.playerHP > 0 ==>
      r.gameState == s.gameState && r.deathReason == s.deathReason &&
      r.deathTime == s.deathTime && r.deathKeys == s.deathKeys
    ensures r.playerHP == 0 ==>
      r.gameState == GameOver && r.deathReason == Some(reason.GetOr("Unknown")) &&
      r.deathTime == time && r.deathKeys == Some(s.keysCollected)
    ensures r == s.(playerHP := r.playerHP, gameState := r.gameState, deathReason := r.deathReason,
                    deathTime := r.deathTime, deathKeys := r.deathKeys, isClear := false)
  {
    var newHP := DamagedHP(s.playerHP, damage);
    var isDead := newHP <= 0;
    s.(playerHP := newHP,
       gameState := if isDead then GameOver else s.gameState,
       deathReason := if isDead then Some(reason.GetOr("Unknown")) else s.deathReason,
       deathTime := if isDead then time else s.deathTime,
       deathKeys := if isDead then Some(s.keysCollected) else s.deathKeys,
       isClear := false)
  }

  function Heal(s: State, amount: int): (r: State)
    ensures r.playerHP == HealedHP(s.playerHP, s.maxHP, amount)
    ensures r == s.(playerHP := r.playerHP)
  {
    s.(playerHP := HealedHP(s.playerHP, s.maxHP, amount))
  }

  /** Resets the session to its start values, keeping the stage only when
      asked to. The level is not reset. */
  function ResetGame(s: State, preserveStage: bool): (r: State)
    ensures r.gameState == Menu && !r.isClear
    ensures r.stageId == (if preserveStage then s.stageId else Stage0)
    ensures r.score == 0 && r.enemyKillCount == 0
    ensures r.playerHP == 100 && r.maxHP == 100
    ensures r.currentAmmo == 30 && r.maxAmmo == 30 && r.reserveAmmo == 90
    ensures r.keysCollected == 0 && r.totalKeys == 1 && r.itemResetTrigger == 0
    ensures r.enemies == [] && r.lastKeySpawns == [] && r.lastHeartSpawns == []
    ensures r.playerPosition == Origin && r.respawnToken == 0 && r.cameraMode == Third
    ensures r.deathReason == None && r.deathTime == None && r.deathKeys == None
    ensures r.level == s.level
  {
    Initial().(stageId := if preserveStage then s.stageId else Stage0, level := s.level)
  }

  /** Clearing ends the game with the clear flag and a "Clear" record. */
  function ClearGame(s: State, time: Option<real>): (r: State)
    ensures r.gameState == GameOver && r.isClear
    ensures r.deathReason == Some("Clear") && r.deathTime == time && r.deathKeys == Some(s.keysCollected)
    ensures r == s.(gameState := r.gameState, isClear := r.isClear, deathReason := r.deathReason,
                    deathTime := r.deathTime, deathKeys := r.deathKeys)
  {
    s.(gameState := GameOver, isClear := true, deathReason := Some("Clear"),
       deathTime := time, deathKeys := Some(s.keysCollected))
  }

  /** A reset without the stage is the initial session, save for the level;
      with the stage it differs from that only in the stage. */
  lemma ResetGameIsInitial(s: State, preserveStage: bool)
    ensures ResetGame(s, false) == Initial().(level := s.level)
    ensures ResetGame(s, true) == Initial().(stageId := s.stageId, level := s.level)
    ensures LevelValid(s) ==> Valid(ResetGame(s, preserveStage))
  {
  }

  /** Resetting twice is resetting once. */
  lemma ResetGameIdempotent(s: State, preserveStage: bool)
    ensures ResetGame(ResetGame(s, preserveStage), preserveStage) == ResetGame(s, preserveStage)
  {
  }

  /** Damage once the player is at zero, even damage 0, rewrites the death
      reason and time: the last lethal call wins. */
  lemma DeathRecordLastWriterWins(s: State, d1: int, d2: int, why1: string, why2: string, t1: real, t2: real)
    requires DamagedHP(s.playerHP, d1) == 0 && d2 >= 0
    ensures TakeDamage(TakeDamage(s, d1, Some(why1), Some(t1)), d2, Some(why2), Some(t2)).deathReason == Some(why2)
    ensures TakeDamage(TakeDamage(s, d1, Some(why1), Some(t1)), d2, Some(why2), Some(t2)).deathTime == Some(t2)
  {
  }

  /** Damage after a clear takes the clear flag away while leaving the phase
      at game over. */
  lemma DamageAfterClearDropsClear(s: State, time: Option<real>, damage: int, reason: Option<string>)
    ensures TakeDamage(ClearGame(s, time), damage, reason, time).isClear == false
    ensures TakeDamage(ClearGame(s, time), damage, reason, time).gameState == GameOver
  {
  }

  /** Non-negative damage and healing keep health within [0, maxHP]. */
  lemma HealthActionsKeepValid(s: State, damage: int, amount: int, reason: Option<string>, time: Option<real>)
    requires Valid(s) && damage >= 0 && amount >= 0
    ensures Valid(TakeDamage(s, damage, reason, time))
    ensures Valid(Heal(s, amount))
  {
  }
}
