/** The game-over screen's two buttons. */
module GameOverScreen {
  import opened Common
  import opened Session
  import GameSlice
  import opened Store

  /** A reset that keeps the stage, then the phase set to playing: a fresh session on
      the same stage, in play. */
  method OnRestart(store: GameStore)
    modifies store
    ensures store.s == GameSlice.SetGameState(GameSlice.ResetGame(old(store.s), true), Playing)
    ensures store.s == Initial().(gameState := Playing, stageId := old(store.s.stageId), level := old(store.s.level))
  {
    store.ResetGame(true);
    store.SetGameState(Playing);
  }

  /** Only the phase changes: score, health, keys and stage survive. */
  method OnBackToMenu(store: GameStore)
    modifies store
    ensures store.s == old(store.s).(gameState := Menu)
  {
    store.SetGameState(Menu);
  }
}
