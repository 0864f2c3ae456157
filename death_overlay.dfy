/** The death overlay's two buttons. Both reset the session, so both leave
    full health and no score, and neither ends at game over. */
module DeathOverlay {
  import opened Common
  import opened Session
  import GameSlice
  import opened Store

  method HandleRestart(store: GameStore)
    modifies store
    ensures store.s == GameSlice.SetGameState(GameSlice.ResetGame(old(store.s), true), Playing)
    ensures store.s.gameState == Playing && store.s.stageId == old(store.s.stageId)
    ensures store.s.playerHP == store.s.maxHP && store.s.score == 0
  {
    store.ResetGame(true);
    store.SetGameState(Playing);
  }

  method HandleReturnToMenu(store: GameStore)
    modifies store
    ensures store.s == GameSlice.SetGameState(GameSlice.ResetGame(old(store.s), false), Menu)
    ensures store.s == GameSlice.ResetGame(old(store.s), false)
    ensures store.s.gameState == Menu && store.s.stageId == Stage0
    ensures store.s.playerHP == store.s.maxHP && store.s.score == 0
  {
    store.ResetGame(false);
    store.SetGameState(Menu);
  }
}
