/** The enemy roster slice: append, remove by id, update the health or the
    position of the entries with an id, and empty the roster. The roster is
    rebuilt and replaced whole each time. */
module EnemiesSlice {
  import opened Common
  import opened Session

  /** Appends without checking that the id is new. */
  function AddEnemy(s: State, e: Enemy): (r: State)
    ensures |r.enemies| == |s.enemies| + 1
    ensures r.enemies[..|s.enemies|] == s.enemies && r.enemies[|s.enemies|] == e
    ensures r == s.(enemies := r.enemies)
  {
    s.(enemies := s.enemies + [e])
  }

  /** The test the roster is filtered with: the entry's id differs from `id`. */
  function OtherThan(id: string): Enemy -> bool {
    (e: Enemy) => e.id != id
  }

  /** Afterwards no entry has the id, every other entry is still there as
      often as before and in the same relative order, and a roster without
      the id is left as it was. */
  function RemoveEnemy(s: State, id: string): (r: State)
    ensures forall e :: e in r.enemies <==> e in s.enemies && e.id != id
    ensures Subsequence(r.enemies, s.enemies)
    ensures forall e :: multiset(r.enemies)[e] == if e.id != id then multiset(s.enemies)[e] else 0
    ensures (forall i :: 0 <= i < |s.enemies| ==> s.enemies[i].id != id) ==> r.enemies == s.enemies
    ensures |r.enemies| <= |s.enemies|
    ensures r == s.(enemies := r.enemies)
  {
    s.(enemies := Filter(s.enemies, OtherThan(id)))
  }

  /** Removing from a roster that just had an entry appended removes from
      the old part and then keeps or drops the new entry: the survivors
      keep their relative order. */
  lemma RemoveAfterAdd(s: State, e: Enemy, id: string)
    ensures RemoveEnemy(AddEnemy(s, e), id).enemies
         == RemoveEnemy(s, id).enemies + (if e.id == id then [] else [e])
  {
    FilterConcat(s.enemies, [e], OtherThan(id));
    assert Filter([e], OtherThan(id)) == (if e.id == id then [] else [e]) by {
      assert [e][1..] == [];
    }
  }

  /** The entries with the id get `health`; all others, and every other
      field, are untouched, and nothing is removed whatever the health. */
  function UpdateEnemyHealth(s: State, id: string, health: int): (r: State)
    ensures |r.enemies| == |s.enemies|
    ensures forall i :: 0 <= i < |s.enemies| ==>
      r.enemies[i] == (if s.enemies[i].id == id then s.enemies[i].(health := health) else s.enemies[i])
    ensures r == s.(enemies := r.enemies)
  {
    s.(enemies := seq(|s.enemies|, i requires 0 <= i < |s.enemies| =>
                      if s.enemies[i].id == id then s.enemies[i].(health := health) else s.enemies[i]))
  }

  /** Same shape as the health update, on the position. */
  function UpdateEnemyPosition(s: State, id: string, position: Vec3): (r: State)
    ensures |r.enemies| == |s.enemies|
    ensures forall i :: 0 <= i < |s.enemies| ==>
      r.enemies[i] == (if s.enemies[i].id == id then s.enemies[i].(position := position) else s.enemies[i])
    ensures r == s.(enemies := r.enemies)
  {
    s.(enemies := seq(|s.enemies|, i requires 0 <= i < |s.enemies| =>
                      if s.enemies[i].id == id then s.enemies[i].(position := position) else s.enemies[i]))
  }

  function ClearEnemies(s: State): (r: State)
    ensures r.enemies == []
    ensures r == s.(enemies := r.enemies)
  {
    s.(enemies := [])
  }

  /** The ids of the roster in order. */
  function Ids(es: seq<Enemy>): (ids: seq<string>)
    ensures |ids| == |es|
    ensures forall i :: 0 <= i < |es| ==> ids[i] == es[i].id
  {
    if es == [] then [] else [es[0].id] + Ids(es[1..])
  }

  /** Neither update changes which ids the roster holds, nor their order;
      an entry at zero health is still present until it is removed. */
  lemma {:induction false} UpdatesKeepIds(s: State, id: string, health: int, position: Vec3)
    ensures Ids(UpdateEnemyHealth(s, id, health).enemies) == Ids(s.enemies)
    ensures Ids(UpdateEnemyPosition(s, id, position).enemies) == Ids(s.enemies)
  {
    var a := Ids(UpdateEnemyHealth(s, id, health).enemies);
    var b := Ids(UpdateEnemyPosition(s, id, position).enemies);
    assert |a| == |Ids(s.enemies)| && forall i :: 0 <= i < |a| ==> a[i] == Ids(s.enemies)[i];
    assert |b| == |Ids(s.enemies)| && forall i :: 0 <= i < |b| ==> b[i] == Ids(s.enemies)[i];
  }
}
