/** The self-contained store variant: the same updater pattern over a
    smaller state (no level, roster, death record, respawn token or camera)
    whose stage change leaves the keys alone. It uses the same health, ammo
    and key rules as the slices. */
module StandaloneStore {
  import opened Common
  import GameSlice
  import AmmoSlice
  import KeysSlice

  datatype LocalState = LocalState(
    gameState: Phase,
    stageId: StageId,
    score: int,
    playerHP: int,
    maxHP: int,
    currentAmmo: int,
    maxAmmo: int,
    reserveAmmo: int,
    keysCollected: int,
    totalKeys: int,
    itemResetTrigger: int,
    playerPosition: Vec3)

  /** The start values of the standalone store. */
  function InitialState(): LocalState {
    LocalState(Menu, Stage0, 0, 100, 100, 30, 30, 90, 0, 1, 0, Origin)
  }

  predicate Valid(s: LocalState) {
    0 < s.maxHP && 0 <= s.playerHP <= s.maxHP &&
    0 <= s.currentAmmo <= s.maxAmmo && 0 <= s.reserveAmmo &&
    0 <= s.keysCollected <= s.totalKeys
  }

  function SetGameState(s: LocalState, phase: Phase): (r: LocalState)
    ensures r.gameState == phase
    ensures r == s.(gameState := r.gameState)
  {
    s.(gameState := phase)
  }

  /** Unlike the slice, the key counts are left as they were. */
  function SetStageId(s: LocalState, stage: StageId): (r: LocalState)
    ensures r.stageId == stage
    ensures r.keysCollected == s.keysCollected && r.totalKeys == s.totalKeys
    ensures r == s.(stageId := r.stageId)
  {
    s.(stageId := stage)
  }

  function AddScore(s: LocalState, n: int): (r: LocalState)
    ensures r.score - s.score == n
    ensures r == s.(score := r.score)
  {
    s.(score := s.score + n)
  }

  function ResetScore(s: LocalState): (r: LocalState)
    ensures r.score == 0
    ensures r == s.(score := r.score)
  {
    s.(score := 0)
  }

  /** Health is clamped at zero and the game ends exactly when it reaches
      zero; no death record is kept. */
  function TakeDamage(s: LocalState, damage: int): (r: LocalState)
    ensures r.playerHP == GameSlice.DamagedHP(s.playerHP, damage)
    ensures r.gameState == (if r.playerHP == 0 then GameOver else s.gameState)
    ensures r == s.(playerHP := r.playerHP, gameState := r.gameState)
  {
    var newHP := GameSlice.DamagedHP(s.playerHP, damage);
    s.(playerHP := newHP, gameState := if newHP <= 0 then GameOver else s.gameState)
  }

  function Heal(s: LocalState, amount: int): (r: LocalState)
    ensures r.playerHP == GameSlice.HealedHP(s.playerHP, s.maxHP, amount)
    ensures r == s.(playerHP := r.playerHP)
  {
    s.(playerHP := GameSlice.HealedHP(s.playerHP, s.maxHP, amount))
  }

  function SetPlayerPosition(s: LocalState, position: Vec3): (r: LocalState)
    ensures r.playerPosition == position
    ensures r == s.(playerPosition := r.playerPosition)
  {
    s.(playerPosition := position)
  }

  function Shoot(s: LocalState): (res: (bool, LocalState))
    ensures res.0 <==> s.currentAmmo > 0
    ensures res.0 ==> res.1 == s.(currentAmmo := s.currentAmmo - 1)
    ensures !res.0 ==> res.1 == s
  {
    if s.currentAmmo > 0 then (true, s.(currentAmmo := s.currentAmmo - 1)) else (false, s)
  }

  function Reload(s: LocalState): (r: LocalState)
    ensures r.currentAmmo + r.reserveAmmo == s.currentAmmo + s.reserveAmmo
    ensures Valid(s) ==> Valid(r) && r.currentAmmo == Min(s.maxAmmo, s.currentAmmo + s.reserveAmmo)
    ensures r == s.(currentAmmo := r.currentAmmo, reserveAmmo := r.reserveAmmo)
  {
    var f := AmmoSlice.Reloaded(s.currentAmmo, s.maxAmmo, s.reserveAmmo);
    s.(currentAmmo := f.current, reserveAmmo := f.reserve)
  }

  function SetTotalKeys(s: LocalState, t: int): (r: LocalState)
    ensures r.totalKeys == Max(0, t)
    ensures r.keysCollected == Min(s.keysCollected, r.totalKeys)
    ensures r == s.(totalKeys := r.totalKeys, keysCollected := r.keysCollected)
  {
    var k := KeysSlice.WithTotal(s.keysCollected, t);
    s.(totalKeys := k.total, keysCollected := k.collected)
  }

  function CollectKey(s: LocalState): (r: LocalState)
    ensures r.keysCollected == KeysSlice.NextCollected(s.keysCollected, s.totalKeys)
    ensures r.keysCollected <= Max(s.keysCollected, s.totalKeys)
    ensures r == s.(keysCollected := r.keysCollected)
  {
    s.(keysCollected := KeysSlice.NextCollected(s.keysCollected, s.totalKeys))
  }

  function ResetKeys(s: LocalState): (r: LocalState)
    ensures r.keysCollected == 0
    ensures r == s.(keysCollected := r.keysCollected)
  {
    s.(keysCollected := 0)
  }

  function TriggerItemReset(s: LocalState): (r: LocalState)
    ensures r.itemResetTrigger == s.itemResetTrigger + 1 && r.keysCollected == 0
    ensures r == s.(itemResetTrigger := r.itemResetTrigger, keysCollected := r.keysCollected)
  {
    s.(itemResetTrigger := s.itemResetTrigger + 1, keysCollected := 0)
  }

  /** Everything back to the start values,
      the stage kept only when asked to. */
  function ResetGame(s: LocalState, preserveStage: bool): (r: LocalState)
    ensures r.gameState == Menu && r.score == 0
    ensures r.playerHP == 100 && r.maxHP == 100
    ensures r.currentAmmo == 30 && r.maxAmmo == 30 && r.reserveAmmo == 90
    ensures r.keysCollected == 0 && r.totalKeys == 1 && r.itemResetTrigger == 0
    ensures r.playerPosition == Origin
    ensures r.stageId == (if preserveStage then s.stageId else Stage0)
    ensures Valid(r)
  {
    InitialState().(stageId := if preserveStage then s.stageId else Stage0)
  }

  /** Every action keeps the invariant, for non-negative damage and
      healing amounts. */
  lemma {:induction false} ActionsKeepValid(s: LocalState, damage: int, amount: int, t: int)
    requires Valid(s) && damage >= 0 && amount >= 0
    ensures Valid(TakeDamage(s, damage)) && Valid(Heal(s, amount))
    ensures Valid(Shoot(s).1) && Valid(Reload(s))
    ensures Valid(SetTotalKeys(s, t)) && Valid(CollectKey(s))
    ensures Valid(ResetKeys(s)) && Valid(TriggerItemReset(s))
  {
  }
}
