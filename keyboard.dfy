/** The keyboard and mouse hook: a record of seven input flags that only
    changes while the game is in play, and the Escape key's pause toggle. */
module Keyboard {
  import opened Common
  import opened Session
  import GameSlice
  import opened Store

  /** The seven flags of the input record. */
  datatype Control = Forward | Backward | Left | Right | Jump | Shoot | Reload

  datatype Keys = Keys(forward: bool, backward: bool, left: bool, right: bool,
                       jump: bool, shoot: bool, reload: bool)

  const NoKeys: Keys := Keys(false, false, false, false, false, false, false)

  function Get(k: Keys, c: Control): bool {
    match c
    case Forward => k.forward
    case Backward => k.backward
    case Left => k.left
    case Right => k.right
    case Jump => k.jump
    case Shoot => k.shoot
    case Reload => k.reload
  }

  /** Flag `c` becomes `v`, the others keep their values. */
  function With(k: Keys, c: Control, v: bool): (r: Keys)
    ensures Get(r, c) == v
    ensures forall d :: d != c ==> Get(r, d) == Get(k, d)
  {
    match c
    case Forward => k.(forward := v)
    case Backward => k.(backward := v)
    case Left => k.(left := v)
    case Right => k.(right := v)
    case Jump => k.(jump := v)
    case Shoot => k.(shoot := v)
    case Reload => k.(reload := v)
  }

  /** Six key codes are bound; the mouse alone drives the shoot flag. */
  function KeyMap(code: string): (c: Option<Control>)
    ensures c.Some? <==> code in ["KeyW", "KeyS", "KeyA", "KeyD", "Space", "KeyR"]
    ensures c != Some(Shoot)
  {
    if code == "KeyW" then Some(Forward)
    else if code == "KeyS" then Some(Backward)
    else if code == "KeyA" then Some(Left)
    else if code == "KeyD" then Some(Right)
    else if code == "Space" then Some(Jump)
    else if code == "KeyR" then Some(Reload)
    else None
  }

  /** A key press or release: ignored for unbound codes and outside play,
      otherwise it sets exactly the bound flag. */
  function UpdateKey(k: Keys, phase: Phase, code: string, value: bool): (r: Keys)
    ensures KeyMap(code).None? || phase != Playing ==> r == k
    ensures KeyMap(code).Some? && phase == Playing ==>
      Get(r, KeyMap(code).value) == value &&
      forall d :: d != KeyMap(code).value ==> Get(r, d) == Get(k, d)
  {
    match KeyMap(code)
    case None => k
    case Some(c) => if phase != Playing then k else With(k, c, value)
  }

  /** The phase Escape leads to: nothing while the pointer is locked;
      otherwise play and pause swap and the other phases stay. */
  function EscapeTarget(phase: Phase, pointerLocked: bool): (p: Phase)
    ensures pointerLocked ==> p == phase
    ensures !pointerLocked && phase == Playing ==> p == Paused
    ensures !pointerLocked && phase == Paused ==> p == Playing
    ensures phase == Menu || phase == GameOver ==> p == phase
  {
    if pointerLocked then phase
    else if phase == Playing then Paused
    else if phase == Paused then Playing
    else phase
  }

  /** Two unlocked Escapes in a row come back to the starting phase. */
  lemma EscapeTwice(phase: Phase)
    ensures EscapeTarget(EscapeTarget(phase, false), false) == phase
  {
  }

  /** The left button (0) sets the shoot flag, but only in play. */
  function MouseDown(k: Keys, phase: Phase, button: int): (r: Keys)
    ensures button == 0 && phase == Playing ==> r == With(k, Shoot, true)
    ensures button != 0 || phase != Playing ==> r == k
  {
    if button == 0 && phase == Playing then k.(shoot := true) else k
  }

  /** Releasing the left button clears the shoot flag in every phase. */
  function MouseUp(k: Keys, button: int): (r: Keys)
    ensures button == 0 ==> !r.shoot && r == With(k, Shoot, false)
    ensures button != 0 ==> r == k
  {
    if button == 0 then k.(shoot := false) else k
  }

  /** The record as the clearing effect leaves it: all flags down outside play. */
  function ClearedFor(k: Keys, phase: Phase): (r: Keys)
    ensures phase != Playing ==> forall c :: !Get(r, c)
    ensures phase == Playing ==> r == k
  {
    if phase != Playing then NoKeys else k
  }

  /** Outside play no input event can raise a flag once it is cleared. */
  lemma {:induction false} NothingRisesOutsidePlay(phase: Phase, code: string, button: int, value: bool)
    requires phase != Playing
    ensures UpdateKey(NoKeys, phase, code, value) == NoKeys
    ensures MouseDown(NoKeys, phase, button) == NoKeys
    ensures MouseUp(NoKeys, button) == NoKeys
  {
  }

  /** The hook's input record and its event handlers; the phase is read
      from, and Escape writes to, the shared store. */
  class KeyboardHook {
    var keys: Keys

    constructor ()
      ensures keys == NoKeys
    {
      keys := NoKeys;
    }

    /** Escape only toggles the phase and never touches the record; any
        other code is a press. */
    method HandleKeyDown(store: GameStore, code: string, pointerLocked: bool)
      modifies this, store
      ensures code == "Escape" ==>
        keys == old(keys) &&
        store.s == GameSlice.SetGameState(old(store.s), EscapeTarget(old(store.s.gameState), pointerLocked))
      ensures code != "Escape" ==>
        keys == UpdateKey(old(keys), old(store.s.gameState), code, true) && store.s == old(store.s)
    {
      if code == "Escape" {
        if pointerLocked {
          return;
        }
        var gs := store.s.gameState;
        if gs == Playing {
          store.SetGameState(Paused);
        } else if gs == Paused {
          store.SetGameState(Playing);
        }
        return;
      }
      keys := UpdateKey(keys, store.s.gameState, code, true);
    }

    method HandleKeyUp(store: GameStore, code: string)
      modifies this
      ensures keys == UpdateKey(old(keys), store.s.gameState, code, false)
    {
      keys := UpdateKey(keys, store.s.gameState, code, false);
    }

    method HandleMouseDown(store: GameStore, button: int)
      modifies this
      ensures keys == MouseDown(old(keys), store.s.gameState, button)
    {
      if button == 0 {
        if store.s.gameState != Playing {
          return;
        }
        keys := keys.(shoot := true);
      }
    }

    method HandleMouseUp(button: int)
      modifies this
      ensures keys == MouseUp(old(keys), button)
    {
      if button == 0 {
        keys := keys.(shoot := false);
      }
    }

    /** The effect that runs on every phase change. */
    method ClearWhenNotPlaying(phase: Phase)
      modifies this
      ensures keys == ClearedFor(old(keys), phase)
    {
      if phase != Playing {
        keys := NoKeys;
      }
    }
  }
}
