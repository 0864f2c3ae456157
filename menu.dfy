/** The start menu's button handler. */
module Menu {
  import opened Common
  import opened Session
  import GameSlice
  import opened Store

  /** A reset that does not keep the stage, then the phase set to playing: a fresh
      session on stage 0, in play, at the level already chosen. */
  method OnStart(store: GameStore)
    modifies store
    ensures store.s == GameSlice.SetGameState(GameSlice.ResetGame(old(store.s), false), Playing)
    ensures store.s == Initial().(gameState := Playing, level := old(store.s.level))
    ensures store.s.stageId == Stage0 && store.s.score == 0 && store.s.playerHP == 100
    ensures store.s.enemies == [] && store.s.deathReason == None && !store.s.isClear
  {
    store.ResetGame(false);
    store.SetGameState(Playing);
  }
}
