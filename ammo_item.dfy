/** An ammunition pickup: touched by the player, it tops the reserve up by
    15 rounds, never beyond 45, and is refused (and stays in the world)
    when the reserve is already at 45 or more. */
module AmmoItem {
  import opened Common
  import opened Session
  import opened Store

  const MAX_RESERVE_AMMO: int := 45
  const AMMO_RESTORE_AMOUNT: int := 15

  /** The reserve after a pickup, or `None` when the pickup is refused. An
      accepted pickup raises the reserve and never past the cap. */
  function Restored(reserve: int): (r: Option<int>)
    ensures r.Some? <==> reserve < MAX_RESERVE_AMMO
    ensures r.Some? ==> r.value == Min(reserve + AMMO_RESTORE_AMOUNT, MAX_RESERVE_AMMO)
    ensures r.Some? ==> reserve < r.value <= MAX_RESERVE_AMMO
  {
    if reserve < MAX_RESERVE_AMMO then Some(Min(reserve + AMMO_RESTORE_AMOUNT, MAX_RESERVE_AMMO)) else None
  }

  /** `handleCollision`: only the player is considered; an accepted pickup
      writes the new reserve straight into the store and reports the item
      collected, a refused one changes nothing. */
  method HandleCollision(store: GameStore, otherIsPlayer: bool) returns (collected: bool)
    modifies store
    ensures collected <==> otherIsPlayer && old(store.s.reserveAmmo) < MAX_RESERVE_AMMO
    ensures collected ==> store.s == old(store.s).(reserveAmmo := Restored(old(store.s.reserveAmmo)).value)
    ensures !collected ==> store.s == old(store.s)
  {
    collected := false;
    if otherIsPlayer {
      if store.s.reserveAmmo < MAX_RESERVE_AMMO {
        var newReserve := Min(store.s.reserveAmmo + AMMO_RESTORE_AMOUNT, MAX_RESERVE_AMMO);
        store.SetReserveAmmo(newReserve);
        collected := true;
      }
    }
  }

  /** A pickup keeps the ammunition invariant and never takes the reserve
      above the larger of its old value and the cap. */
  lemma {:induction false} PickupKeepsAmmoValid(s: State)
    requires AmmoValid(s) && s.reserveAmmo < MAX_RESERVE_AMMO
    ensures AmmoValid(s.(reserveAmmo := Restored(s.reserveAmmo).value))
    ensures s.reserveAmmo < Restored(s.reserveAmmo).value <= MAX_RESERVE_AMMO
  {
    assert Restored(s.reserveAmmo).Some?;
  }

  /** With the starting reserve of 90, every pickup is refused until the
      player has spent the reserve below 45. */
  lemma {:induction false} InitialReserveRefuses()
    ensures Restored(Initial().reserveAmmo) == None
  {
    assert Initial().reserveAmmo == 90;
  }
}
