# A model of the game rules of putera2025

putera2025 is a browser game built with three.js and React. The player walks a
stage, picks up keys, hearts and ammunition, shoots enemies and dodges their
bullets. They open a keyhole goal once every key on the map is held. Reaching
the goal, or running out of health, ends the run.

This project models the part of the game that decides what happens:
- the game store and its slices: phase, stage, score, health, ammunition, keys, enemies, player and camera;
- the menu, pause, death and game-over screens that drive the store;
- the keyboard hook;
- the enemy spawner and the enemy AI;
- the player's weapon and bullets, and the enemy bullets;
- the key, heart and ammunition spawners and their items;
- the reset spot and the keyhole goal;
- the HUD's objective line, match clock and health bar;
- the maze generator and its wall list.

Randomness (`Math.random`) is an extra parameter: a sample `u` with `0 <= u < 1`, or a sequence of such samples. Clock readings are parameters too. Distances are compared squared instead of through `Math.hypot`.

Module layout:
- `Common` holds shared helpers.
- `Session` holds the store's state record and its validity predicates.
- Each slice is a module of pure `State -> State` functions: `GameSlice`, `AmmoSlice`, `KeysSlice`, `EnemiesSlice`, `PlayerSlice`, `CameraSlice`.
- `Store.GameStore` is the shared store object. Each of its methods is proved to apply the matching slice function.
- `StandaloneStore` is the second, self-contained store variant in `src/stores/useGameStore.ts`.
- Components that keep refs or state across frames are classes whose fields are those refs: spawners, controllers, bullets, the reset spot, the clock and the keyboard hook. Their methods are proved against the slice functions.
- The maze generator works in place on an `array2` of cells, as the source does on its grid.

Where the code and the written design differ, the model follows the code:
- `takeDamage` ignores the phase and always clears `isClear`. A second lethal hit overwrites the first death record (`GameSlice.DeathRecordLastWriterWins`, `GameSlice.DamageAfterClearDropsClear`).
- The enemy AI has no phase check and no throttling. It measures full 3-D distance. A melee strike passes no reason, so a death by melee is recorded as "Unknown" (`EnemyAI.StrikeDeathIsUnknown`).
- The player's weapon never calls the store's `shoot`, so firing does not use up ammunition.
- The keyhole goal asks for navigation to the goal page. It does not call `clearGame`.
- The overlays read actions from `useGameStore`, yet `requestRespawn` exists only in the slices. The model treats the slices as the store that the components use.
- `StageId` in `src/stores/useGameStore.ts:5` is `stage0 | stage1` only. The model uses the four stages that the stage tables name.
- `incrementKillCount`, `setLevel`, `clearGame` and `toggleCameraMode` are never called. So the ammo spawner's kill-based spawn never fires in play.
- `setLastHeartSpawns` is not defined in the slices. It is modelled as a plain write of `lastHeartSpawns`. Nothing ever sets `lastKeySpawns`, so stage1 hearts avoid no keys in practice.
- The ammo item reads the reserve when it renders. The initial reserve is 90 and the cap is 45, so every pickup is refused until the reserve drops below 45 (`AmmoItem.InitialReserveRefuses`).
- The slice's `resetGame` leaves `level` as it was.
- The key spawner writes the store's key total only when the number of keys changes. A restart from the game-over screen therefore keeps the reset total of 1 while three keys are placed (see "## Findings").
- A wall shared by two maze cells is listed twice, at the same place (`Maze.SharedWallsCoincide`).

## Model

| member | source | states |
|---|---|---|
| Common.PickIndex | src/components/canvas/KeySpawner.tsx:24 | `Math.floor(u * n)` for a sample `u` is always a valid index below `n` |
| Common.Filter | src/stores/slices/enemiesSlice.ts:10 | filtering keeps exactly the elements that pass, in their relative order and each as often as before, never lengthens, and keeps everything when all pass |
| Common.FilterUnique | src/stores/slices/enemiesSlice.ts:10 | any list that keeps the original order and holds each passing element as often as the original (and no failing one) is the filtered list, so order and counts pin filtering down |
| Common.SubsequenceMultiset | src/stores/slices/enemiesSlice.ts:10 | an order-keeping selection never holds an element more often than the original |
| Common.FilterKeepsIncreasing | src/components/canvas/Weapon/Weapon.tsx:41-47 | filtering a list ordered by a strictly increasing key leaves it strictly increasing (bullet ids stay ordered after the lifetime filter) |
| Common.IdCounter.constructor | src/components/canvas/Weapon/Weapon.tsx:29 | a module-level id counter starts at 0 |
| Common.IdCounter.Take | src/components/canvas/Items/AmmoSpawner.tsx:17 | taking an id returns the current counter and advances it by exactly one |
| Session.InitialValid | src/stores/useGameStore.ts:53-66 | the initial state is in the menu with no enemies, and satisfies every health, ammo, key and level invariant |
| EnemyStats.StatsOf | src/constants/enemies.ts:17-58 | every enemy type attacks from strictly inside its detection range and has positive health, speed, damage and score |
| GameSlice.SetGameState | src/stores/slices/gameSlice.ts:8 | the phase becomes the given one and nothing else changes |
| GameSlice.SetStageId | src/stores/slices/gameSlice.ts:14 | changing stage sets the stage, zeroes the collected and total key counts (a valid key state), and changes nothing else |
| GameSlice.ClampLevel | src/stores/slices/gameSlice.ts:18 | the level is the floor of the input clamped into 1..4: the floor itself when it is in range, 1 below, 4 above |
| GameSlice.SetLevel | src/stores/slices/gameSlice.ts:18 | the new level is always valid, equals the floored input when in range, and nothing else changes |
| GameSlice.AddScore | src/stores/slices/gameSlice.ts:21 | the score grows by exactly the amount and nothing else changes |
| GameSlice.ResetScore | src/stores/slices/gameSlice.ts:22 | the score becomes 0 and nothing else changes |
| GameSlice.IncrementKillCount | src/stores/slices/gameSlice.ts:25 | the kill count grows by one and nothing else changes |
| GameSlice.DamagedHP | src/stores/slices/gameSlice.ts:31 | health after damage is never negative; it is 0 exactly when the damage reaches the health, otherwise health minus damage, and never more than before |
| GameSlice.HealedHP | src/stores/slices/gameSlice.ts:45 | health after healing never exceeds the maximum; it is health plus amount exactly when that fits, otherwise the maximum, and never less than before |
| GameSlice.TakeDamage | src/stores/slices/gameSlice.ts:29-43 | health drops by the damage floored at 0 and isClear is always cleared; on death the phase becomes gameOver and the reason, time and held keys are recorded; otherwise phase and record are kept |
| GameSlice.Heal | src/stores/slices/gameSlice.ts:44-45 | health becomes the capped sum and nothing else changes |
| GameSlice.ResetGame | src/stores/slices/gameSlice.ts:47-76 | every field returns to its initial value, the stage is kept only when asked, and the level is left alone |
| GameSlice.ClearGame | src/stores/slices/gameSlice.ts:79-86 | a clear ends the run with isClear set and a "Clear" record holding the time and the keys held, and changes nothing else |
| GameSlice.ResetGameIsInitial | src/stores/slices/gameSlice.ts:47-76 | resetting yields exactly the initial state, apart from the kept level and the kept stage, and preserves validity |
| GameSlice.ResetGameIdempotent | src/stores/slices/gameSlice.ts:47-76 | resetting twice is the same as resetting once |
| GameSlice.DeathRecordLastWriterWins | src/stores/slices/gameSlice.ts:32-39 | after a lethal hit, a second hit replaces the death reason and time with its own |
| GameSlice.DamageAfterClearDropsClear | src/stores/slices/gameSlice.ts:41 | damage after a clear leaves the run over but drops its clear flag |
| GameSlice.HealthActionsKeepValid | src/stores/slices/gameSlice.ts:29-45 | non-negative damage and healing keep every state invariant |
| AmmoSlice.Reloaded | src/stores/slices/ammoSlice.ts:20-28 | reloading moves rounds from the reserve into the magazine: the total is conserved, the magazine ends at min(max, current + reserve), the reserve stays non-negative |
| AmmoSlice.ReloadedTwice | src/stores/slices/ammoSlice.ts:20-28 | a second reload right after the first changes nothing |
| AmmoSlice.Shoot | src/stores/slices/ammoSlice.ts:9-19 | shooting succeeds exactly when the magazine is non-empty, then removes one round; on failure the state is unchanged |
| AmmoSlice.Reload | src/stores/slices/ammoSlice.ts:20-28 | reload conserves magazine plus reserve, fills the magazine as far as the reserve allows, keeps ammo valid, and touches nothing else |
| AmmoSlice.AmmoActionsKeepValid | src/stores/slices/ammoSlice.ts:9-28 | reload is idempotent and shooting keeps ammo valid |
| KeysSlice.WithTotal | src/stores/slices/keysSlice.ts:8-12 | the new total is max(0, t) and the collected count is clamped down to it, kept exactly when it already fits |
| KeysSlice.NextCollected | src/stores/slices/keysSlice.ts:13-14 | collecting counts one more key until the total is reached, then stays at the total |
| KeysSlice.SetTotalKeys | src/stores/slices/keysSlice.ts:8-12 | the total becomes max(0, t), collected becomes min(collected, total), key validity holds, nothing else changes |
| KeysSlice.CollectKey | src/stores/slices/keysSlice.ts:13-14 | collecting a key preserves key validity and is a no-op once every key is held |
| KeysSlice.ResetKeys | src/stores/slices/keysSlice.ts:15 | the collected count returns to 0 and nothing else changes |
| KeysSlice.TriggerItemReset | src/stores/slices/keysSlice.ts:17-18 | the reset trigger advances by one and the collected count returns to 0 |
| KeysSlice.CollectNFromZero | src/stores/slices/keysSlice.ts:13-14 | collecting n keys from zero leaves min(n, total) keys held |
| EnemiesSlice.AddEnemy | src/stores/slices/enemiesSlice.ts:7-8 | the enemy is appended after the existing roster, which is kept as it was |
| EnemiesSlice.RemoveEnemy | src/stores/slices/enemiesSlice.ts:9-10 | exactly the enemies with other ids remain, in their relative order and each as often as before; with no match the roster is unchanged |
| EnemiesSlice.RemoveAfterAdd | src/stores/slices/enemiesSlice.ts:7-10 | removing an id after adding an enemy gives the old roster without that id, followed by the new enemy unless it has that id |
| EnemiesSlice.UpdateEnemyHealth | src/stores/slices/enemiesSlice.ts:11-12 | the enemy with the id gets the new health, every other enemy and the order are kept |
| EnemiesSlice.UpdateEnemyPosition | src/stores/slices/enemiesSlice.ts:13-14 | the enemy with the id gets the new position, every other enemy and the order are kept |
| EnemiesSlice.ClearEnemies | src/stores/slices/enemiesSlice.ts:15 | the roster becomes empty and nothing else changes |
| EnemiesSlice.UpdatesKeepIds | src/stores/slices/enemiesSlice.ts:11-14 | health and position updates never change which ids are present or their order |
| PlayerSlice.SetPlayerPosition | src/stores/slices/playerSlice.ts:7-8 | the position becomes the given one and nothing else changes |
| PlayerSlice.RequestRespawn | src/stores/slices/playerSlice.ts:11-12 | the respawn token advances by one and health is restored to the maximum, valid exactly when the maximum is positive |
| CameraSlice.SetCameraMode | src/stores/slices/cameraSlice.ts:8 | the camera mode becomes the given one and nothing else changes |
| CameraSlice.ToggleCameraMode | src/stores/slices/cameraSlice.ts:9-10 | toggling always changes the mode and nothing else |
| CameraSlice.ToggleTwice | src/stores/slices/cameraSlice.ts:9-10 | toggling twice restores the original state |
| Store.GameStore.constructor | src/stores/useGameStore.ts:53-66 | a fresh store holds the initial state |
| Store.GameStore.SetGameState | src/stores/slices/gameSlice.ts:8 | the store's state becomes the slice's setGameState of the old state |
| Store.GameStore.ResetGame | src/stores/slices/gameSlice.ts:47-76 | the store's state becomes the slice's resetGame of the old state |
| Store.GameStore.AddScore | src/stores/slices/gameSlice.ts:21 | the store's state becomes the slice's addScore of the old state |
| Store.GameStore.TakeDamage | src/stores/slices/gameSlice.ts:29-43 | the store's state becomes the slice's takeDamage of the old state |
| Store.GameStore.Heal | src/stores/slices/gameSlice.ts:44-45 | the store's state becomes the slice's heal of the old state |
| Store.GameStore.SetReserveAmmo | src/components/canvas/Items/AmmoItem.tsx:63-66 | only the reserve is overwritten, as the ammo item's direct store write does |
| Store.GameStore.SetTotalKeys | src/stores/slices/keysSlice.ts:8-12 | the store's state becomes the slice's setTotalKeys of the old state |
| Store.GameStore.CollectKey | src/stores/slices/keysSlice.ts:13-14 | the store's state becomes the slice's collectKey of the old state |
| Store.GameStore.ResetKeys | src/stores/slices/keysSlice.ts:15 | the store's state becomes the slice's resetKeys of the old state |
| Store.GameStore.TriggerItemReset | src/stores/slices/keysSlice.ts:17-18 | the store's state becomes the slice's triggerItemReset of the old state |
| Store.GameStore.AddEnemy | src/stores/slices/enemiesSlice.ts:7-8 | the store's state becomes the slice's addEnemy of the old state |
| Store.GameStore.RemoveEnemy | src/stores/slices/enemiesSlice.ts:9-10 | the store's state becomes the slice's removeEnemy of the old state |
| Store.GameStore.UpdateEnemyHealth | src/stores/slices/enemiesSlice.ts:11-12 | the store's state becomes the slice's updateEnemyHealth of the old state |
| Store.GameStore.UpdateEnemyPosition | src/stores/slices/enemiesSlice.ts:13-14 | the store's state becomes the slice's updateEnemyPosition of the old state |
| Store.GameStore.ClearEnemies | src/stores/slices/enemiesSlice.ts:15 | the store's state becomes the slice's clearEnemies of the old state |
| Store.GameStore.RequestRespawn | src/stores/slices/playerSlice.ts:11-12 | the store's state becomes the slice's requestRespawn of the old state |
| Store.GameStore.SetLastHeartSpawns | src/components/canvas/HeartSpawner.tsx:116-118 | only the published heart spawn points are overwritten |
| StandaloneStore.SetGameState | src/stores/useGameStore.ts:75 | the phase becomes the given one and nothing else changes |
| StandaloneStore.SetStageId | src/stores/useGameStore.ts:78 | unlike the slice, changing stage here keeps the key counts: only the stage changes |
| StandaloneStore.AddScore | src/stores/useGameStore.ts:81 | the score grows by exactly the amount and nothing else changes |
| StandaloneStore.ResetScore | src/stores/useGameStore.ts:82 | the score becomes 0 and nothing else changes |
| StandaloneStore.TakeDamage | src/stores/useGameStore.ts:85-92 | health drops by the damage floored at 0; the phase becomes gameOver exactly on death; no death record is kept |
| StandaloneStore.Heal | src/stores/useGameStore.ts:93-96 | health becomes the sum capped at the maximum and nothing else changes |
| StandaloneStore.SetPlayerPosition | src/stores/useGameStore.ts:98 | the position becomes the given one and nothing else changes |
| StandaloneStore.Shoot | src/stores/useGameStore.ts:100-110 | shooting succeeds exactly when the magazine is non-empty, then removes one round; otherwise nothing changes |
| StandaloneStore.Reload | src/stores/useGameStore.ts:111-119 | reload conserves magazine plus reserve and fills the magazine as far as the reserve allows |
| StandaloneStore.SetTotalKeys | src/stores/useGameStore.ts:122-129 | the total becomes max(0, t) and collected is clamped to it |
| StandaloneStore.CollectKey | src/stores/useGameStore.ts:130-133 | one more key is counted until the total is reached |
| StandaloneStore.ResetKeys | src/stores/useGameStore.ts:134 | the collected count returns to 0 |
| StandaloneStore.TriggerItemReset | src/stores/useGameStore.ts:137-141 | the reset trigger advances by one and the collected count returns to 0 |
| StandaloneStore.ResetGame | src/stores/useGameStore.ts:145-149 | every field returns to its initial value, the stage kept only when asked, and the result is valid |
| StandaloneStore.ActionsKeepValid | src/stores/useGameStore.ts:85-141 | every health, ammo and key action keeps the standalone store's invariants |
| Menu.OnStart | src/components/dom/Menu/index.tsx:10-14 | starting from the menu yields the initial state in play on stage0, whatever came before (level aside) |
| GameOverScreen.OnRestart | src/components/dom/GameOver/index.tsx:11-15 | restarting yields the initial state in play on the same stage |
| GameOverScreen.OnBackToMenu | src/components/dom/GameOver/index.tsx:17-19 | going back to the menu changes only the phase, keeping score and death record for display |
| DeathOverlay.HandleRestart | src/components/dom/DeathOverlay/index.tsx:14-17 | restarting after death plays the same stage again at full health and zero score |
| DeathOverlay.HandleReturnToMenu | src/components/dom/DeathOverlay/index.tsx:19-22 | returning to the menu is exactly a full reset to stage0 |
| PauseOverlay.OnResume | src/components/dom/PauseOverlay/index.tsx:10-13 | resuming changes only the phase to playing |
| PauseOverlay.OnReturnToStart | src/components/dom/PauseOverlay/index.tsx:15-19 | returning to start yields exactly the initial state (level aside) |
| PauseOverlay.OnRespawn | src/components/dom/PauseOverlay/index.tsx:23-27 | respawning restores full health, advances the respawn token and resumes play, changing nothing else |
| Keyboard.With | src/hooks/useKeyboard.ts:40-46 | setting one control changes that control only |
| Keyboard.KeyMap | src/hooks/useKeyboard.ts:31-38 | exactly the six codes W, S, A, D, Space and R are mapped, and none maps to shooting |
| Keyboard.UpdateKey | src/hooks/useKeyboard.ts:40-46 | outside play or for an unmapped code the keys are unchanged; otherwise only the mapped control takes the value |
| Keyboard.EscapeTarget | src/hooks/useKeyboard.ts:48-60 | Escape without pointer lock toggles playing and paused, and leaves menu and game-over alone; with the pointer locked it does nothing |
| Keyboard.EscapeTwice | src/hooks/useKeyboard.ts:48-60 | pressing Escape twice returns to the phase one started in |
| Keyboard.MouseDown | src/hooks/useKeyboard.ts:66-72 | the left button sets shooting, only while playing; other presses change nothing |
| Keyboard.MouseUp | src/hooks/useKeyboard.ts:74-78 | releasing the left button clears shooting in any phase; other buttons change nothing |
| Keyboard.ClearedFor | src/hooks/useKeyboard.ts:94-113 | outside play every control is released; in play the keys are kept |
| Keyboard.NothingRisesOutsidePlay | src/hooks/useKeyboard.ts:40-78 | from all-released keys, no key or mouse event outside play presses anything |
| Keyboard.KeyboardHook.constructor | src/hooks/useKeyboard.ts:17-25 | the hook starts with every control released |
| Keyboard.KeyboardHook.HandleKeyDown | src/hooks/useKeyboard.ts:48-60 | Escape moves the store to the Escape target and leaves keys alone; any other code updates the keys only |
| Keyboard.KeyboardHook.HandleKeyUp | src/hooks/useKeyboard.ts:62-64 | key release updates the mapped control to false under the same phase rule |
| Keyboard.KeyboardHook.HandleMouseDown | src/hooks/useKeyboard.ts:66-72 | mouse press applies the press rule to the keys |
| Keyboard.KeyboardHook.HandleMouseUp | src/hooks/useKeyboard.ts:74-78 | mouse release applies the release rule to the keys |
| Keyboard.KeyboardHook.ClearWhenNotPlaying | src/hooks/useKeyboard.ts:94-113 | on a phase change away from play every control is released |
| EnemySpawner.StageSpawnPoints | src/components/canvas/Enemy/EnemySpawner.tsx:35-36 | every stage has spawn points; fixed stages use their three-point table, the others the stage table |
| EnemySpawner.SafePoints | src/components/canvas/Enemy/EnemySpawner.tsx:38-46 | the safe points are the stage points far enough from the player, or all of them when none is; never empty when there are points |
| EnemySpawner.SafeSpawnPoints | src/components/canvas/Enemy/EnemySpawner.tsx:38-46 | for any stage and player, a non-empty subset of that stage's points |
| EnemySpawner.AllowedEnemyTypes | src/components/canvas/Enemy/EnemySpawner.tsx:49-61 | level n unlocks the first n types of the unlock order, all four outside 1..3; basic always, sniper only then |
| EnemySpawner.RandomEnemyType | src/components/canvas/Enemy/EnemySpawner.tsx:64-67 | the random type is one of the allowed types for the level |
| EnemySpawner.SpawnEnemy | src/components/canvas/Enemy/EnemySpawner.tsx:84-97 | a new enemy sits on the point with the drawn id, at the full health of an allowed type |
| EnemySpawner.Positions | src/components/canvas/Enemy/EnemySpawner.tsx:133-144 | the positions of a roster, in order |
| EnemySpawner.FixedWave | src/components/canvas/Enemy/EnemySpawner.tsx:123-131 | a fixed stage spawns one fresh enemy on each of its first points, no more than the room left under the cap |
| EnemySpawner.RandomWave | src/components/canvas/Enemy/EnemySpawner.tsx:133-144 | a random wave takes up to two safe points without reuse, within the room left under the cap, each enemy fresh |
| EnemySpawner.PeriodicSpawn | src/components/canvas/Enemy/EnemySpawner.tsx:148-162 | an interval tick spawns exactly when playing below the cap, on a safe point, a fresh enemy |
| EnemySpawner.Spawner.constructor | src/components/canvas/Enemy/EnemySpawner.tsx:100-102 | the spawner starts with no initial spawn done, tracking the current phase |
| EnemySpawner.Spawner.TrackPhase | src/components/canvas/Enemy/EnemySpawner.tsx:100-102 | the phase ref follows the phase |
| EnemySpawner.Spawner.ResetOnPhase | src/components/canvas/Enemy/EnemySpawner.tsx:105-110 | entering the menu or game-over clears the roster and re-arms the initial spawn; other phases change nothing |
| EnemySpawner.Spawner.InitialSpawn | src/components/canvas/Enemy/EnemySpawner.tsx:113-145 | the first play frame adds one wave to the roster, once; otherwise nothing changes |
| EnemySpawner.Spawner.AddAll | src/components/canvas/Enemy/EnemySpawner.tsx:123-144 | adding a batch appends it to the roster in order |
| EnemySpawner.Spawner.IntervalTick | src/components/canvas/Enemy/EnemySpawner.tsx:148-162 | an interval tick adds exactly the periodic spawn, if any, to the roster |
| EnemyAI.Decide | src/components/canvas/Enemy/Enemy.tsx:49-89 | an enemy is idle outside its detection range, holds and attacks inside its attack range, and chases in between |
| EnemyAI.AttackRangeInsideDetection | src/components/canvas/Enemy/Enemy.tsx:49-67 | an enemy within attack range always attacks rather than chases, for every enemy type |
| EnemyAI.Step | src/components/canvas/Enemy/Enemy.tsx:49-96 | it moves only while chasing, at its speed on x and z, keeping vertical velocity; it turns unless idle; it strikes exactly when holding and the cooldown has passed, and then records the time |
| EnemyAI.StrikesSpacedOut | src/components/canvas/Enemy/Enemy.tsx:26 | over any sequence of frames, consecutive strikes are at least the attack cooldown apart |
| EnemyAI.EnemyController.constructor | src/components/canvas/Enemy/Enemy.tsx:26-33 | a controller starts with no attack recorded |
| EnemyAI.EnemyController.Frame | src/components/canvas/Enemy/Enemy.tsx:35-97 | one frame applies the step: a strike damages the player by the type's damage, and the enemy's position is written back |
| EnemyAI.StrikeDeathIsUnknown | src/components/canvas/Enemy/Enemy.tsx:58-67 | a lethal melee strike records the death as "Unknown" with no time |
| EnemyAI.DeathEffect | src/components/canvas/Enemy/Enemy.tsx:29-33 | an enemy at zero health or below is removed from the roster, any other is kept |
| Weapon.LiveBullets | src/components/canvas/Weapon/Weapon.tsx:41-47 | exactly the bullets no older than the lifetime remain, in their relative order and each as often as before |
| Weapon.Fires | src/components/canvas/Weapon/Weapon.tsx:50-55 | the weapon fires exactly on a press edge once the fire interval has passed |
| Weapon.HoldFiresOnce | src/components/canvas/Weapon/Weapon.tsx:49-55 | over any run of frames with the button held, however they are timed, the weapon fires at most once, and not at all when the button was already down before the run |
| Weapon.Weapon.constructor | src/components/canvas/Weapon/Weapon.tsx:29-47 | a weapon starts with no bullets, no shot and the button up |
| Weapon.Weapon.Shoot | src/components/canvas/Weapon/Weapon.tsx:58-78 | with its refs ready, a shot appends one unhit bullet with the next id and advances the counter; otherwise nothing changes |
| Weapon.Weapon.Frame | src/components/canvas/Weapon/Weapon.tsx:41-78 | a frame prunes bullets past their lifetime, fires exactly on the edge rule, and remembers the button state |
| Weapon.FirstHit | src/components/canvas/Weapon/Weapon.tsx:123-146 | the hit enemy is the first one within reach, and none when no enemy is |
| Weapon.Hit | src/components/canvas/Weapon/Weapon.tsx:133-140 | a hit lowers the enemy's health by the pistol damage floored at 0 and adds its score when the hit kills; nothing else in the session changes |
| Weapon.Bullet.constructor | src/components/canvas/Weapon/Weapon.tsx:109-117 | a bullet starts with its data's hit flag and no velocity applied |
| Weapon.Bullet.Frame | src/components/canvas/Weapon/Weapon.tsx:109-147 | velocity is applied once; a spent bullet changes nothing; otherwise the first enemy within reach is hit, once |
| EnemyBullet.EnemyBullet.constructor | src/components/canvas/Enemy/EnemyBullet.tsx:59-75 | an enemy bullet starts unhit, unexpired and without velocity |
| EnemyBullet.EnemyBullet.HandleCollision | src/components/canvas/Enemy/EnemyBullet.tsx:44-56 | only the first contact counts: if it is the player, they take the bullet's damage with the bullet reason and the given time; any contact spends the bullet |
| EnemyBullet.EnemyBullet.Frame | src/components/canvas/Enemy/EnemyBullet.tsx:59-87 | only a live bullet in play moves; it expires after its lifetime and receives velocity once |
| EnemyBullet.EnemyBullet.ExpireEffect | src/components/canvas/Enemy/EnemyBullet.tsx:90-99 | a hit or expired bullet reports its id for removal, any other reports nothing |
| Collectibles.PermutationKeepsDistinct | src/components/canvas/KeySpawner.tsx:21-39 | shuffling distinct points leaves them distinct |
| Collectibles.Shuffle | src/components/canvas/KeySpawner.tsx:21-28 | the Fisher-Yates shuffle returns a permutation of its input |
| Collectibles.Number | src/components/canvas/KeySpawner.tsx:30-39 | each chosen point becomes one uncollected item with a distinct id at that point |
| Collectibles.ItemPositions | src/components/canvas/KeySpawner.tsx:30-39 | the positions of a set of items, in order |
| Collectibles.CreateSpawnSet | src/components/canvas/KeySpawner.tsx:30-39 | max(0, min(count, points)) uncollected items with distinct ids, taken from the points without reuse, on distinct points when the points are distinct |
| Collectibles.MarkCollected | src/components/canvas/KeySpawner.tsx:75-81 | the item with the id becomes collected, every other item and the order are kept |
| Collectibles.SliceEnd | src/components/canvas/HeartSpawner.tsx:37-46 | `slice(0, end)` keeps min(end, len) items, and max(0, len + end) for a negative end |
| KeySpawner.KeyPointsDistinct | src/components/canvas/KeySpawner.tsx:9-18 | the eight key spawn points are pairwise distinct |
| KeySpawner.CreateKeySet | src/components/canvas/KeySpawner.tsx:30-39 | max(0, min(count, 8)) uncollected keys with distinct ids on distinct table points |
| KeySpawner.KeySpawner.constructor | src/components/canvas/KeySpawner.tsx:54 | the first key set is made on mount |
| KeySpawner.KeySpawner.RegenerateEffect | src/components/canvas/KeySpawner.tsx:56-65 | in play a fresh key set replaces the old and the collected count resets; otherwise nothing changes |
| KeySpawner.TotalKeysSync | src/components/canvas/KeySpawner.tsx:67-73 | the effect's store change: none when the number of keys is the one it last ran with; otherwise the total becomes that number, after a re-run's cleanup has zeroed the collected count, and nothing else changes |
| KeySpawner.KeySpawner.TotalKeysEffect | src/components/canvas/KeySpawner.tsx:67-73 | the effect runs only when the number of keys differs from the one it last ran with; then the store's total becomes the number of keys, otherwise the store is untouched; the keys are unchanged |
| KeySpawner.KeySpawner.Cleanup | src/components/canvas/KeySpawner.tsx:67-73 | unmounting zeroes the total and the collected count |
| KeySpawner.KeySpawner.Regenerate | src/components/canvas/KeySpawner.tsx:56-73 | after regeneration in play none of the new keys is collected and the collected count is 0; the total counts the new keys only when their number differs from the one the total-keys effect last ran with, and otherwise keeps its old value |
| KeySpawner.RestartKeepsStaleTotal | src/components/canvas/KeySpawner.tsx:56-73 | after a restart from the game-over screen with three keys placed again, the total stays at the reset value 1 and the first key picked up opens the goal |
| KeySpawner.KeySpawner.RegenerateSynced | src/components/canvas/KeySpawner.tsx:56-73 | the corrected regeneration: in play the store's total is exactly the number of new keys, none collected, a valid key state; otherwise nothing changes |
| KeySpawner.SyncedRestartNeedsAllKeys | src/components/canvas/KeySpawner.tsx:56-73 | with the corrected regeneration, after a restart the goal opens once all n keys are picked up and not after n − 1 |
| KeySpawner.KeySpawner.HandlePickup | src/components/canvas/KeySpawner.tsx:75-81 | a pickup marks that key collected and counts one more key in the store |
| KeySpawner.KeySpawner.HandleEnter | src/components/canvas/KeySpawner.tsx:108-115 | only the player touching an uncollected key picks it up; anything else changes nothing |
| HeartSpawner.RandBetween | src/components/canvas/HeartSpawner.tsx:49-51 | a random value lies in [lo, hi) when lo < hi |
| HeartSpawner.AnyCloser | src/components/canvas/HeartSpawner.tsx:59-86 | true exactly when some point is strictly within the distance |
| HeartSpawner.GenerateStage1Points | src/components/canvas/HeartSpawner.tsx:63-86 | at most count points within the bounds, outside the excluded rectangle, at least 1 apart and at least the minimum distance from the keys; fewer only after every attempt was used |
| HeartSpawner.GetSpawnPointsForStage | src/components/canvas/HeartSpawner.tsx:91-99 | stage1 gets at most num generated points; other stages get a slice of their shuffled table (stage0's as fallback) of the slice length |
| HeartSpawner.HeartSpawner.constructor | src/components/canvas/HeartSpawner.tsx:112-113 | the first heart set is made on mount from the computed points |
| HeartSpawner.HeartSpawner.PublishEffect | src/components/canvas/HeartSpawner.tsx:116-118 | the computed points are published to the store and nothing else changes |
| HeartSpawner.HeartSpawner.RegenerateEffect | src/components/canvas/HeartSpawner.tsx:120-128 | in play new points are published and a heart set is drawn from them; otherwise nothing changes |
| HeartSpawner.HeartSpawner.HandlePickup | src/components/canvas/HeartSpawner.tsx:129-135 | a pickup marks the heart collected and heals the player by 25 |
| HeartSpawner.HeartSpawner.HandleEnter | src/components/canvas/HeartSpawner.tsx:164-171 | only the player touching an uncollected heart picks it up |
| AmmoItem.Restored | src/components/canvas/Items/AmmoItem.tsx:56-72 | a pickup is taken exactly when the reserve is below the cap of 45, and raises it by 15 without passing the cap |
| AmmoItem.HandleCollision | src/components/canvas/Items/AmmoItem.tsx:56-72 | the item is collected exactly when the player touches it below the cap; only the reserve changes, and on refusal nothing does |
| AmmoItem.PickupKeepsAmmoValid | src/components/canvas/Items/AmmoItem.tsx:56-72 | a pickup keeps ammo valid and strictly raises the reserve up to the cap |
| AmmoItem.InitialReserveRefuses | src/constants/items.ts:4-16 | with the initial reserve of 90 every ammo pickup is refused |
| AmmoSpawner.AmmoSpawner.constructor | src/components/canvas/Items/AmmoSpawner.tsx:17-22 | a spawner starts empty with both spawn clocks at zero |
| AmmoSpawner.AmmoSpawner.PhaseEffect | src/components/canvas/Items/AmmoSpawner.tsx:27-33 | entering play clears the items and the spawn clocks; other phases change nothing |
| AmmoSpawner.AmmoSpawner.SpawnAmmo | src/components/canvas/Items/AmmoSpawner.tsx:61-72 | one item with the next id is appended at a randomly chosen fixed point |
| AmmoSpawner.AmmoSpawner.Frame | src/components/canvas/Items/AmmoSpawner.tsx:36-46 | in play, once the spawn interval has passed, one item spawns and the time is recorded; otherwise nothing changes |
| AmmoSpawner.AmmoSpawner.KillEffect | src/components/canvas/Items/AmmoSpawner.tsx:49-58 | in play, once five kills have been made since the last kill spawn, one item spawns and the kill count is recorded; otherwise nothing changes |
| AmmoSpawner.AmmoSpawner.HandleCollect | src/components/canvas/Items/AmmoSpawner.tsx:75-77 | exactly the items with other ids remain, in order |
| AmmoSpawner.TimeSpawnsSpacedOut | src/components/canvas/Items/AmmoSpawner.tsx:36-46 | over any sequence of frames, time spawns are at least the interval apart |
| ResetSpot.Decayed | src/components/canvas/ResetSpot.tsx:26-31 | a running cooldown decreases by the frame time floored at 0, and never grows |
| ResetSpot.CooldownRunsOut | src/components/canvas/ResetSpot.tsx:26-31 | the cooldown stays within its start and reaches 0 once the frame times add up to it |
| ResetSpot.ResetSpot.constructor | src/components/canvas/ResetSpot.tsx:23 | a reset spot starts active |
| ResetSpot.ResetSpot.Frame | src/components/canvas/ResetSpot.tsx:26-31 | the cooldown decays only while playing |
| ResetSpot.ResetSpot.HandleEnter | src/components/canvas/ResetSpot.tsx:49-58 | the player on an active spot triggers an item reset and starts the cooldown; otherwise nothing changes |
| ResetSpot.NoEarlySecondReset | src/components/canvas/ResetSpot.tsx:7 | until frame times adding up to the 10-second cooldown have passed in play, the spot stays inactive after a reset |
| KeyholeGoal.HandleEnter | src/components/models/KeyholeGoal.tsx:26-30 | the player entering asks for navigation exactly when keys exist and all are held |
| KeyholeGoal.NoKeysMeansLocked | src/components/models/KeyholeGoal.tsx:11 | with no keys on the map the goal never opens |
| KeyholeGoal.UnlockedIffAllHeld | src/components/models/KeyholeGoal.tsx:11 | in a valid key state the goal is open exactly when every key is held |
| KeyholeGoal.CollectingAllOpens | src/components/models/KeyholeGoal.tsx:11 | collecting every key opens the goal, and one key fewer does not |
| Goals.ScaledGoal | src/constants/goals.ts:19-23 | the goal is scaled by the stage scale, with the fallback goal and scale 1 when missing |
| Goals.ScaledGoalPosition | src/constants/goals.ts:19-23 | every stage has both a table goal and a scale, so neither fallback is taken; the goal is the table goal times the stage's scale, 3 on stage1 and stageL and 1 elsewhere |
| Goals.GoalScales | src/constants/goals.ts:8-23 | stage0 and stage2 goals are unscaled, stage1 and stageL goals are tripled, stage1's lands at (0, 9, 84) |
| KeyPanel.ObjectiveText | src/components/dom/HUD/KeyPanel.tsx:34 | the objective says to find the goal exactly when keys exist and all are held |
| KeyPanel.ObjectiveMatchesGoal | src/components/dom/HUD/KeyPanel.tsx:34 | the objective points at the goal exactly when the keyhole goal is unlocked |
| KeyPanel.KeyPanel.constructor | src/components/dom/HUD/KeyPanel.tsx:23-33 | the panel remembers the current key count |
| KeyPanel.KeyPanel.KeysEffect | src/components/dom/HUD/KeyPanel.tsx:23-33 | the sound plays exactly when audio is ready and the count rose; the count is remembered only when audio is ready |
| HealthPanel.Round | src/components/dom/HUD/HealthPanel.tsx:56 | `Math.round` returns the integer nearest to x, halves rounding up |
| HealthPanel.RoundMonotone | src/components/dom/HUD/HealthPanel.tsx:56 | rounding is monotone |
| HealthPanel.HpPercent | src/components/dom/HUD/HealthPanel.tsx:64 | the percentage is 0 with no maximum, otherwise the whole percent nearest to hp·100/maxHP (within a half), in 0..100 for valid health, 100 when full and 0 when empty |
| HealthPanel.HpPercentMonotone | src/components/dom/HUD/HealthPanel.tsx:64 | more health never shows a smaller percentage |
| HealthPanel.HpBlocks | src/components/dom/HUD/HealthPanel.tsx:65 | the bar has 0..12 blocks; for a percentage in 0..100 it is the whole number of twelfths nearest to it (halves up); none exactly at 4% or below, all twelve exactly at 96% or above |
| HealthPanel.HpBlocksMonotone | src/components/dom/HUD/HealthPanel.tsx:65 | more health never shows fewer blocks |
| HealthPanel.HpBar | src/components/dom/HUD/HealthPanel.tsx:66 | the bar is exactly n block characters |
| HealthPanel.Offset | src/components/dom/HUD/HealthPanel.tsx:39 | the clock's random offset lies in [-3, 3) |
| HealthPanel.NextDelay | src/components/dom/HUD/HealthPanel.tsx:36 | the next offset change comes after 5 to 10 seconds |
| HealthPanel.DisplaySeconds | src/components/dom/HUD/HealthPanel.tsx:56 | the shown seconds are the rounded offset time floored at 0, within 3 of the true seconds once past 3 |
| HealthPanel.TimeText | src/components/dom/HUD/HealthPanel.tsx:57-59 | the clock reads "mm:ss" with at least two minute digits |
| HealthPanel.TimeTextRoundTrip | src/components/dom/HUD/HealthPanel.tsx:57-59 | reading the clock text back gives the seconds shown, and its seconds field is below 60 |
| HealthPanel.MatchClock.constructor | src/components/dom/HUD/HealthPanel.tsx:16-29 | the clock starts at zero seconds with no offset |
| HealthPanel.MatchClock.PhaseEffect | src/components/dom/HUD/HealthPanel.tsx:16-29 | entering play from the menu or game-over restarts the clock; every phase change clears the offset |
| HealthPanel.MatchClock.Tick | src/components/dom/HUD/HealthPanel.tsx:16-29 | the clock counts one second per tick in play only |
| HealthPanel.MatchClock.OffsetTick | src/components/dom/HUD/HealthPanel.tsx:31-54 | in play the offset is redrawn within [-3, 3); otherwise it is kept |
| HealthPanel.MatchClock.Text | src/components/dom/HUD/HealthPanel.tsx:56-59 | the shown text is the time text of the displayed seconds, and reads back to them |
| Maze.InitMaze | src/components/models/levels/MazeStage.tsx:21-31 | a new size-by-size grid of unvisited cells, each with all four walls, placed at its coordinates |
| Maze.Neighbours | src/components/models/levels/MazeStage.tsx:43-54 | exactly the directions to in-grid, unvisited neighbours |
| Maze.CarvingShape | src/components/models/levels/MazeStage.tsx:38-81 | during carving the grid stays placed, walls stay symmetric, the border stays closed, and visited cells and open walls match the carving record |
| Maze.Carve | src/components/models/levels/MazeStage.tsx:61-77 | carving toward a neighbour removes the shared wall on both sides and marks the neighbour visited, keeping the carving invariant |
| Maze.Visit | src/components/models/levels/MazeStage.tsx:75 | marking a cell visited keeps the carving invariant |
| Maze.GridCard | src/components/models/levels/MazeStage.tsx:38-81 | the grid has size squared cells, which bounds the carving loop |
| Maze.StartMaze | src/components/models/levels/MazeStage.tsx:33-36 | the walk starts from (0, 0), visited, with no wall removed |
| Maze.OpenExit | src/components/models/levels/MazeStage.tsx:84-85 | the exit opens both the right and the bottom wall of the last cell; the border is closed everywhere else, and walls, visits and passages are otherwise kept |
| Maze.StepCounts | src/components/models/levels/MazeStage.tsx:58-77 | each carving step visits one new cell and opens one new wall, keeping every opened wall between visited cells |
| Maze.GenerateMaze | src/components/models/levels/MazeStage.tsx:17-88 | the result is size by size, walls symmetric and closed except the exit, starting cell visited, and one fewer opened wall than visited cells; the visit record lists each visited cell once, starting at (0,0), every later one reached from an earlier one through its own opened wall, and the opened walls are exactly those, so they form a spanning tree of the visited cells |
| Maze.TreeGrows | src/components/models/levels/MazeStage.tsx:58-77 | a forward step from a visited cell to an unvisited neighbour extends the visit record and keeps it a tree |
| Maze.CellWalls | src/components/models/levels/MazeStage.tsx:103-133 | one wall piece per standing wall of the cell |
| Maze.CellWallsStanding | src/components/models/levels/MazeStage.tsx:103-133 | each of the cell's four wall pieces is listed exactly when that wall stands |
| Maze.GridWallsCount | src/components/models/levels/MazeStage.tsx:96-135 | the wall list has exactly one piece per standing wall in the grid |
| Maze.SharedWallsCoincide | src/components/models/levels/MazeStage.tsx:99-133 | a wall shared by two cells lies at the same place and turn from either side |
| Maze.CellPieces | src/components/models/levels/MazeStage.tsx:103-133 | the pieces pushed for one cell are its standing walls, in top, right, bottom, left order |
| Maze.BuildWallList | src/components/models/levels/MazeStage.tsx:93-138 | the list is every cell's standing walls in row-major order, one piece per standing wall |

## Left out

- Rendering, meshes, physics bodies, sensors and colliders are left out. A contact is given to each handler as a boolean (`otherIsPlayer`), and "within reach" as a list of booleans.
- Audio is left out. `KeyPanel.KeyPanel.KeysEffect` returns whether the sound plays. Loading the sound becomes the `audioReady` parameter.
- Navigation is left out. `KeyholeGoal.HandleEnter` returns whether it navigates.
- React's scheduling is left out: effects, `useMemo`, `setTimeout` and `setInterval`. Each effect or timer callback is a method that the caller invokes at the matching moment.
- `Date.now`, `performance.now` and frame clocks are parameters, and `Math.random` draws are sample parameters in [0, 1).
- Vector maths is not modelled: `normalize`, `atan2` facing, `applyEuler`, the bullet start position and direction, and the enemy bullets' camera-facing turn. Directions enter as parameters. `EnemyAI.Step` says only whether the enemy turns.
- Enemy id strings built from the clock and a random suffix are not built. Each spawn draw carries its id. Item ids such as `key-<i>-<x>,<z>` are kept as a structured value of kind, index and position.
- The early return of an enemy whose ref is not yet mounted is not modelled. Neither is the enemy's bobbing or hit animation, nor the item animations.
- `Weapon.Bullet.Frame`: the source writes `hasHit` both on the bullet's ref and on the shared bullet record. The model keeps only the bullet's own flag, so that aliasing is not modelled.
- `HeartSpawner.GenerateStage1Points`: `round1` enters as an uninterpreted function on reals. The model does not fix its one-decimal rounding.
- `HealthPanel.HpPercent`: health and its maximum are integers and the share is exact real division, not a JavaScript double. At an exact half the two can differ: for 29 of 200 the exact share rounds to 15, while the double product is just below 14.5 and rounds to 14. The maximum is 100 wherever the game sets it, and there the exact and double results agree. The same holds for `HpBlocks` on the percentage.
- The HUD's position read-out, formatted with `toFixed`, is left out because it is a floating-point formatting call.
- `Maze.GenerateMaze`: does not state that every cell of the grid ends up visited, only that the opened walls form a tree over the cells that were visited. It requires `size >= 1`: with size 0 the source reads a missing first cell.
- `Maze.BuildWallList` is stated for the 20-by-20 grid the stage uses. The wall thickness constant is unused in the model. The quarter-turn rotation (π/2) is the `QuarterTurn` value.
- `HeartSpawner.GetSpawnPointsForStage`: on stage1 it states only the count bound, because the generated points are described by `GenerateStage1Points`. On other stages it states the length of the slice and that the points come from the table without reuse, not which shuffled prefix is taken.
- `HeartSpawner.HeartSpawner.RegenerateEffect`: the published points are tied to the stage's rule only through `GetSpawnPointsForStage`. The contract states the heart count, max(0, min(count, points)), and that the hearts sit on published points without reuse.
- `HeartSpawner.HeartSpawner.constructor`: the spawn points computed on mount are a parameter.
- `EnemySpawner.Spawner.InitialSpawn`: the contract says the added batch lies within the cap and is made of fresh enemies. It does not say which fixed or random wave was chosen.
- `Collectibles.Shuffle`: the contract states a permutation, not which permutation the samples produce.
- `KeyholeGoal.HandleEnter`: the goal's position and the sensor that detects the player are not modelled.
- The menu background, styling, the pointer-lock request and all other DOM-only behaviour are left out.

## Findings

| source | as written | input that shows it | evidently intended | confidence | as-written member | corrected member |
|---|---|---|---|---|---|---|
| src/components/canvas/KeySpawner.tsx:56-73 | the total-keys effect depends on `keys.length` only, so a regeneration that places as many keys as before leaves the store's total alone | game over, then restart: `resetGame(true)` sets the total to 1 while the scene and the spawner stay mounted, the spawner places three keys again, the total stays 1, and one key opens the goal | every regeneration sets the total to the number of keys it placed | not executed | KeySpawner.RestartKeepsStaleTotal | KeySpawner.KeySpawner.RegenerateSynced |
