/** The ammo slice: a magazine of `maxAmmo` rounds and a reserve it is
    refilled from. The firing and reloading rules are shared with the
    standalone store. */
module AmmoSlice {
  import opened Common
  import opened Session

  /** The outcome of one reload: the new magazine and reserve counts. */
  datatype Refill = Refill(current: int, reserve: int)

  /** A reload takes what the magazine lacks, or the whole reserve if that is
      less: rounds
      move from the reserve into the magazine, none are created or lost,
      and a well-formed magazine ends as full as the reserve allows. */
  function Reloaded(current: int, max: int, reserve: int): (f: Refill)
    ensures f.current + f.reserve == current + reserve
    ensures 0 <= current <= max && 0 <= reserve ==>
      f.current == Min(max, current + reserve) && 0 <= f.reserve && current <= f.current <= max
  {
    var needed := max - current;
    var available := Min(needed, reserve);
    Refill(current + available, reserve - available)
  }

  /** A second reload straight after the first moves nothing. */
  lemma ReloadedTwice(current: int, max: int, reserve: int)
    requires 0 <= current <= max && 0 <= reserve
    ensures Reloaded(Reloaded(current, max, reserve).current, max, Reloaded(current, max, reserve).reserve)
         == Reloaded(current, max, reserve)
  {
    var f := Reloaded(current, max, reserve);
    if f.current < max {
      assert f.reserve == 0;
    }
  }

  /** `shoot` fires (and reports true) exactly when the magazine is not
      empty; a shot spends one round and touches nothing else, a refused
      shot changes nothing. */
  function Shoot(s: State): (res: (bool, State))
    ensures res.0 <==> s.currentAmmo > 0
    ensures res.0 ==> res.1.currentAmmo == s.currentAmmo - 1 && res.1 == s.(currentAmmo := res.1.currentAmmo)
    ensures !res.0 ==> res.1 == s
  {
    if s.currentAmmo > 0 then (true, s.(currentAmmo := s.currentAmmo - 1)) else (false, s)
  }

  function Reload(s: State): (r: State)
    ensures r.currentAmmo + r.reserveAmmo == s.currentAmmo + s.reserveAmmo
    ensures AmmoValid(s) ==> AmmoValid(r) && r.currentAmmo == Min(s.maxAmmo, s.currentAmmo + s.reserveAmmo)
    ensures r == s.(currentAmmo := r.currentAmmo, reserveAmmo := r.reserveAmmo)
  {
    var f := Reloaded(s.currentAmmo, s.maxAmmo, s.reserveAmmo);
    s.(currentAmmo := f.current, reserveAmmo := f.reserve)
  }

  /** Under the ammo invariant, reloading is idempotent and shooting keeps
      the invariant. */
  lemma {:induction false} AmmoActionsKeepValid(s: State)
    requires AmmoValid(s)
    ensures Reload(Reload(s)) == Reload(s)
    ensures AmmoValid(Shoot(s).1)
  {
    ReloadedTwice(s.currentAmmo, s.maxAmmo, s.reserveAmmo);
  }
}
