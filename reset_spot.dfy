/** The reset spot: stepping on it while it is ready asks every item
    spawner to start over and puts the spot on a ten-second cooldown, which
    runs down only while the game is in play. */
module ResetSpot {
  import opened Common
  import opened Session
  import KeysSlice
  import opened Store

  const COOLDOWN_TIME: real := 10.0

  /** One frame of cooldown: it runs down by the frame time, never below
      zero; at zero it stays. */
  function Decayed(cooldown: real, delta: real): (c: real)
    ensures cooldown > 0.0 ==> c == MaxReal(0.0, cooldown - delta)
    ensures cooldown <= 0.0 ==> c == cooldown
    ensures 0.0 <= cooldown && 0.0 <= delta ==> 0.0 <= c <= cooldown
  {
    if cooldown > 0.0 then MaxReal(0.0, cooldown - delta) else cooldown
  }

  /** The cooldown after a run of frames in play. */
  function DecayedOver(cooldown: real, deltas: seq<real>): real
    decreases |deltas|
  {
    if deltas == [] then cooldown else DecayedOver(Decayed(cooldown, deltas[0]), deltas[1..])
  }

  function Sum(ds: seq<real>): real {
    if ds == [] then 0.0 else ds[0] + Sum(ds[1..])
  }

  /** Frames whose times add up to at least the cooldown bring it to zero;
      along the way it never leaves `[0, cooldown]`. */
  lemma {:induction false} CooldownRunsOut(cooldown: real, deltas: seq<real>)
    requires 0.0 <= cooldown
    requires forall i :: 0 <= i < |deltas| ==> 0.0 <= deltas[i]
    ensures 0.0 <= DecayedOver(cooldown, deltas) <= cooldown
    ensures Sum(deltas) >= cooldown ==> DecayedOver(cooldown, deltas) == 0.0
    decreases |deltas|
  {
    if deltas != [] {
      var next := Decayed(cooldown, deltas[0]);
      CooldownRunsOut(next, deltas[1..]);
      SumNonNegative(deltas[1..]);
    }
  }

  class ResetSpot {
    var cooldown: real

    constructor ()
      ensures cooldown == 0.0 && IsActive()
    {
      cooldown := 0.0;
    }

    ghost predicate Valid()
      reads this
    {
      0.0 <= cooldown <= COOLDOWN_TIME
    }

    /** The spot is ready (and drawn green) exactly at zero cooldown. */
    predicate IsActive()
      reads this
    {
      cooldown == 0.0
    }

    /** One frame: the cooldown runs down in play and is frozen otherwise. */
    method Frame(phase: Phase, delta: real)
      requires Valid() && 0.0 <= delta
      modifies this
      ensures Valid()
      ensures cooldown == if phase == Playing then Decayed(old(cooldown), delta) else old(cooldown)
    {
      if phase != Playing {
        return;
      }
      if cooldown > 0.0 {
        cooldown := MaxReal(0.0, cooldown - delta);
      }
    }

    /** `handleEnter`: ignored while cooling down or when the other body is
        not the player; otherwise one item reset and a full cooldown. */
    method HandleEnter(store: GameStore, otherIsPlayer: bool)
      requires Valid()
      modifies this, store
      ensures Valid()
      ensures old(cooldown) <= 0.0 && otherIsPlayer ==>
        store.s == KeysSlice.TriggerItemReset(old(store.s)) && cooldown == COOLDOWN_TIME && !IsActive()
      ensures !(old(cooldown) <= 0.0 && otherIsPlayer) ==> store.s == old(store.s) && cooldown == old(cooldown)
    {
      if cooldown > 0.0 {
        return;
      }
      if !otherIsPlayer {
        return;
      }
      store.TriggerItemReset();
      cooldown := COOLDOWN_TIME;
    }
  }

  /** Two accepted entries need at least ten seconds of play between them:
      play time shorter than the cooldown leaves the spot inactive. */
  lemma {:induction false} NoEarlySecondReset(deltas: seq<real>)
    requires forall i :: 0 <= i < |deltas| ==> 0.0 <= deltas[i]
    requires Sum(deltas) < COOLDOWN_TIME
    ensures DecayedOver(COOLDOWN_TIME, deltas) > 0.0
  {
    CooldownLeft(COOLDOWN_TIME, deltas);
  }

  /** While frames add up to less than the cooldown, what is left is the
      cooldown minus their sum. */
  lemma {:induction false} CooldownLeft(cooldown: real, deltas: seq<real>)
    requires forall i :: 0 <= i < |deltas| ==> 0.0 <= deltas[i]
    requires Sum(deltas) < cooldown
    ensures DecayedOver(cooldown, deltas) == cooldown - Sum(deltas)
    decreases |deltas|
  {
    if deltas != [] {
      assert 0.0 <= Sum(deltas[1..]) by { SumNonNegative(deltas[1..]); }
      CooldownLeft(cooldown - deltas[0], deltas[1..]);
    }
  }

  lemma {:induction false} SumNonNegative(ds: seq<real>)
    requires forall i :: 0 <= i < |ds| ==> 0.0 <= ds[i]
    ensures 0.0 <= Sum(ds)
  {
    if ds != [] {
      SumNonNegative(ds[1..]);
    }
  }
}
