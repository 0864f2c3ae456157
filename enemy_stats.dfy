/** The enemy catalogue: the four enemy types, their fixed statistics and
    the roster limits. */
module EnemyStats {

  datatype EnemyType = Basic | Fast | Tank | Sniper

  /** One row of the statistics table; `size` is width, height, depth in
      metres and `color` the display colour. */
  datatype Stats = Stats(
    maxHealth: int,
    speed: real,
    damage: int,
    attackRange: real,
    detectionRange: real,
    size: (real, real, real),
    color: string,
    scoreValue: int)

  /** Every type's row: it attacks only from inside the range at which it
      notices the player, and all of its quantities are positive. */
  function StatsOf(t: EnemyType): (st: Stats)
    ensures 0.0 < st.attackRange < st.detectionRange
    ensures st.maxHealth > 0 && st.speed > 0.0 && st.damage > 0 && st.scoreValue > 0
  {
    match t
    case Basic => Stats(100, 3.0, 10, 1.5, 20.0, (1.0, 1.5, 1.0), "#ff4444", 100)
    case Fast => Stats(50, 6.0, 5, 1.0, 25.0, (0.7, 1.2, 0.7), "#44ff44", 150)
    case Tank => Stats(300, 1.5, 25, 2.0, 15.0, (1.5, 2.0, 1.5), "#4444ff", 300)
    case Sniper => Stats(75, 2.0, 30, 15.0, 35.0, (0.8, 1.8, 0.8), "#ff44ff", 200)
  }

  const DEFAULT_ENEMY_TYPE: EnemyType := Sniper

  /** Seconds between periodic spawns. */
  const ENEMY_SPAWN_INTERVAL: int := 5

  /** Most enemies the roster may hold when a spawner adds one. */
  const MAX_ENEMIES: int := 10
}
