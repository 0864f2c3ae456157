/** The pause overlay's three buttons. */
module PauseOverlay {
  import opened Common
  import opened Session
  import GameSlice
  import PlayerSlice
  import opened Store

  /** Back into play; nothing else changes. */
  method OnResume(store: GameStore)
    modifies store
    ensures store.s == old(store.s).(gameState := Playing)
  {
    store.SetGameState(Playing);
  }

  /** A reset that does not keep the stage, then the phase set to the menu. */
  method OnReturnToStart(store: GameStore)
    modifies store
    ensures store.s == GameSlice.SetGameState(GameSlice.ResetGame(old(store.s), false), Menu)
    ensures store.s == Initial().(level := old(store.s.level))
  {
    store.ResetGame(false);
    store.SetGameState(Menu);
  }

  /** A respawn request, then the phase set to playing: a new respawn token
      and full health; score, keys, ammo and stage are kept. */
  method OnRespawn(store: GameStore)
    modifies store
    ensures store.s == GameSlice.SetGameState(PlayerSlice.RequestRespawn(old(store.s)), Playing)
    ensures store.s == old(store.s).(respawnToken := old(store.s.respawnToken) + 1,
                                     playerHP := old(store.s.maxHP), gameState := Playing)
  {
    store.RequestRespawn();
    store.SetGameState(Playing);
  }
}
