/** The session state shared by every component: the union of the fields the
    store slices declare (game, ammo, keys, enemies, player, camera). */
module Session {
  import opened Common
  import opened EnemyStats

  datatype CameraMode = Third | First

  /** One entry of the enemy roster. */
  datatype Enemy = Enemy(id: string, kind: EnemyType, health: int, position: Vec3)

  datatype State = State(
    gameState: Phase,
    isClear: bool,
    stageId: StageId,
    level: int,
    score: int,
    enemyKillCount: int,
    playerHP: int,
    maxHP: int,
    deathReason: Option<string>,
    deathTime: Option<real>,
    deathKeys: Option<int>,
    currentAmmo: int,
    maxAmmo: int,
    reserveAmmo: int,
    keysCollected: int,
    totalKeys: int,
    itemResetTrigger: int,
    enemies: seq<Enemy>,
    playerPosition: Vec3,
    respawnToken: int,
    cameraMode: CameraMode,
    lastKeySpawns: seq<Vec3>,
    lastHeartSpawns: seq<Vec3>)

  /** The values the slices start with; fields no slice initialises (the
      death record, the last spawn lists) start empty. */
  function Initial(): State {
    State(
      gameState := Menu,
      isClear := false,
      stageId := Stage0,
      level := 1,
      score := 0,
      enemyKillCount := 0,
      playerHP := 100,
      maxHP := 100,
      deathReason := None,
      deathTime := None,
      deathKeys := None,
      currentAmmo := 30,
      maxAmmo := 30,
      reserveAmmo := 90,
      keysCollected := 0,
      totalKeys := 1,
      itemResetTrigger := 0,
      enemies := [],
      playerPosition := Origin,
      respawnToken := 0,
      cameraMode := Third,
      lastKeySpawns := [],
      lastHeartSpawns := [])
  }

  /** Health lies between 0 and a positive maximum. */
  predicate HealthValid(s: State) {
    0 < s.maxHP && 0 <= s.playerHP <= s.maxHP
  }

  /** The magazine holds between 0 and `maxAmmo` rounds; the reserve is not negative. */
  predicate AmmoValid(s: State) {
    0 <= s.currentAmmo <= s.maxAmmo && 0 <= s.reserveAmmo
  }

  /** Collected keys never exceed the total. */
  predicate KeysValid(s: State) {
    0 <= s.keysCollected <= s.totalKeys
  }

  predicate LevelValid(s: State) {
    1 <= s.level <= 4
  }

  /** The invariant every store action keeps (for non-negative damage and
      healing amounts). */
  predicate Valid(s: State) {
    HealthValid(s) && AmmoValid(s) && KeysValid(s) && LevelValid(s)
  }

  lemma InitialValid()
    ensures Valid(Initial())
    ensures Initial().gameState == Menu && Initial().enemies == []
  {
  }
}
