/** The player slice: the player's last reported position and the respawn
    token the player component watches. */
module PlayerSlice {
  import opened Common
  import opened Session

  function SetPlayerPosition(s: State, position: Vec3): (r: State)
    ensures r.playerPosition == position
    ensures r == s.(playerPosition := r.playerPosition)
  {
    s.(playerPosition := position)
  }

  /** Bumps the token and restores full health; the phase and everything
      else stay as they were. */
  function RequestRespawn(s: State): (r: State)
    ensures r.respawnToken == s.respawnToken + 1
    ensures r.playerHP == s.maxHP
    ensures HealthValid(r) <==> 0 < s.maxHP
    ensures r == s.(respawnToken := r.respawnToken, playerHP := r.playerHP)
  {
    s.(respawnToken := s.respawnToken + 1, playerHP := s.maxHP)
  }
}
