/** Shared vocabulary of the game: phases, stages, points, the random-index
    rule every spawner uses, and the list filter the store and the spawners
    rebuild their lists with. */
module Common {

  datatype Option<T> = None | Some(value: T) {
    /** The value, or `default` when there is none. */
    function GetOr(default: T): T {
      match this
      case Some(v) => v
      case None => default
    }
  }

  /** The game phase held in the store's `gameState`. */
  datatype Phase = Menu | Playing | Paused | GameOver

  /** The four stages the stage tables know about. */
  datatype StageId = Stage0 | Stage1 | Stage2 | StageL

  /** A point or vector of the 3-D scene, `[x, y, z]`. */
  datatype Vec3 = Vec3(x: real, y: real, z: real)

  const Origin: Vec3 := Vec3(0.0, 0.0, 0.0)

  function Min(a: int, b: int): int { if a <= b then a else b }

  function Max(a: int, b: int): int { if a >= b then a else b }

  function MaxReal(a: real, b: real): real { if a >= b then a else b }

  /** Squared horizontal distance (x and z only) between two points. */
  function SqDistXZ(a: Vec3, b: Vec3): real {
    (a.x - b.x) * (a.x - b.x) + (a.z - b.z) * (a.z - b.z)
  }

  /** Squared 3-D distance between two points. */
  function SqDist3(a: Vec3, b: Vec3): real {
    (a.x - b.x) * (a.x - b.x) + (a.y - b.y) * (a.y - b.y) + (a.z - b.z) * (a.z - b.z)
  }

  /** A sample of `Math.random()`: a real in [0, 1). */
  predicate IsSample(u: real) { 0.0 <= u < 1.0 }

  predicate AllSamples(us: seq<real>) {
    forall k :: 0 <= k < |us| ==> IsSample(us[k])
  }

  /** The index every random choice uses: the sample scaled to `n`, rounded down. */
  function PickIndex(u: real, n: nat): (k: nat)
    requires IsSample(u) && n > 0
    ensures k < n
  {
    assert 0.0 <= u * (n as real) by {
      assert 0.0 <= u && 0.0 <= n as real;
    }
    assert u * (n as real) < n as real by {
      assert (1.0 - u) * (n as real) > 0.0;
    }
    (u * (n as real)).Floor
  }

  /** `a` can be obtained from `b` by deleting elements: its elements
      appear in `b` in the same order (matched greedily from the left). */
  predicate Subsequence<T(==)>(a: seq<T>, b: seq<T>)
    decreases |b|
  {
    if a == [] then true
    else if b == [] then false
    else if a[0] == b[0] then Subsequence(a[1..], b[1..])
    else Subsequence(a, b[1..])
  }

  /** The elements of `s` that satisfy `p`, in their order: a subsequence of
      `s` holding every passing element as often as `s` does and no other. */
  function Filter<T(!new)>(s: seq<T>, p: T -> bool): (r: seq<T>)
    ensures |r| <= |s|
    ensures forall x :: x in r <==> x in s && p(x)
    ensures (forall i :: 0 <= i < |s| ==> p(s[i])) ==> r == s
    ensures Subsequence(r, s)
    ensures forall x :: multiset(r)[x] == if p(x) then multiset(s)[x] else 0
  {
    if s == [] then []
    else
      assert s == [s[0]] + s[1..];
      if p(s[0]) then [s[0]] + Filter(s[1..], p)
      else Filter(s[1..], p)
  }

  /** A subsequence never holds an element more often than the whole. */
  lemma {:induction false} SubsequenceMultiset<T>(a: seq<T>, b: seq<T>)
    requires Subsequence(a, b)
    ensures multiset(a) <= multiset(b)
    decreases |b|
  {
    if a != [] {
      assert b == [b[0]] + b[1..];
      if a[0] == b[0] {
        SubsequenceMultiset(a[1..], b[1..]);
        assert a == [a[0]] + a[1..];
      } else {
        SubsequenceMultiset(a, b[1..]);
      }
    }
  }

  /** Filter's contract determines it: the only subsequence of `s` that
      keeps each passing element as often as `s` does, and no failing one,
      is `Filter(s, p)`. */
  lemma {:induction false} FilterUnique<T(!new)>(r: seq<T>, s: seq<T>, p: T -> bool)
    requires Subsequence(r, s)
    requires forall x :: multiset(r)[x] == if p(x) then multiset(s)[x] else 0
    ensures r == Filter(s, p)
    decreases |s|
  {
    if s == [] {
      assert r == [];
    } else {
      var h := s[0];
      assert s == [h] + s[1..];
      assert multiset(s)[h] == multiset(s[1..])[h] + 1;
      if p(h) {
        assert multiset(r)[h] >= 1;
        assert r != [];
        if r[0] != h {
          SubsequenceMultiset(r, s[1..]);
          assert false;
        }
        assert r == [h] + r[1..];
        forall x ensures multiset(r[1..])[x] == if p(x) then multiset(s[1..])[x] else 0 {
          assert multiset(r)[x] == multiset(r[1..])[x] + (if x == h then 1 else 0);
          assert multiset(s)[x] == multiset(s[1..])[x] + (if x == h then 1 else 0);
        }
        FilterUnique(r[1..], s[1..], p);
      } else {
        assert h !in multiset(r);
        assert r == [] || r[0] != h;
        assert Subsequence(r, s[1..]);
        forall x ensures multiset(r)[x] == if p(x) then multiset(s[1..])[x] else 0 {
          assert multiset(s)[x] == multiset(s[1..])[x] + (if x == h then 1 else 0);
        }
        FilterUnique(r, s[1..], p);
      }
    }
  }

  /** Filtering distributes over concatenation: the kept elements stay in
      their relative order. */
  lemma {:induction false} FilterConcat<T(!new)>(a: seq<T>, b: seq<T>, p: T -> bool)
    ensures Filter(a + b, p) == Filter(a, p) + Filter(b, p)
  {
    if a == [] {
      assert a + b == b;
    } else {
      assert (a + b)[0] == a[0];
      assert (a + b)[1..] == a[1..] + b;
      FilterConcat(a[1..], b, p);
    }
  }

  /** A list whose keys strictly increase keeps that order when filtered. */
  lemma {:induction false} FilterKeepsIncreasing<T(!new)>(s: seq<T>, p: T -> bool, key: T -> int)
    requires forall i, j :: 0 <= i < j < |s| ==> key(s[i]) < key(s[j])
    ensures forall i, j :: 0 <= i < j < |Filter(s, p)| ==> key(Filter(s, p)[i]) < key(Filter(s, p)[j])
  {
    if s != [] {
      var tail := s[1..];
      forall i, j | 0 <= i < j < |tail| ensures key(tail[i]) < key(tail[j]) {
        assert tail[i] == s[i + 1] && tail[j] == s[j + 1];
      }
      FilterKeepsIncreasing(tail, p, key);
      var rest := Filter(tail, p);
      if p(s[0]) {
        HeadBelowRest(s, p, key);
        ConsIncreasing(s[0], rest, key);
        assert Filter(s, p) == [s[0]] + rest;
      } else {
        assert Filter(s, p) == rest;
      }
    }
  }

  /** A head below every key of an increasing list keeps it increasing. */
  lemma ConsIncreasing<T>(h: T, rest: seq<T>, key: T -> int)
    requires forall y :: y in rest ==> key(h) < key(y)
    requires forall i, j :: 0 <= i < j < |rest| ==> key(rest[i]) < key(rest[j])
    ensures forall i, j :: 0 <= i < j < |[h] + rest| ==> key(([h] + rest)[i]) < key(([h] + rest)[j])
  {
    var r := [h] + rest;
    forall i, j | 0 <= i < j < |r| ensures key(r[i]) < key(r[j]) {
      if i == 0 {
        assert r[j] == rest[j - 1];
        assert rest[j - 1] in rest;
      } else {
        assert r[i] == rest[i - 1] && r[j] == rest[j - 1];
      }
    }
  }

  /** In a list with increasing keys, the head's key is below every key
      the filtered tail keeps. */
  lemma HeadBelowRest<T(!new)>(s: seq<T>, p: T -> bool, key: T -> int)
    requires s != [] && forall i, j :: 0 <= i < j < |s| ==> key(s[i]) < key(s[j])
    ensures forall y :: y in Filter(s[1..], p) ==> key(s[0]) < key(y)
  {
    forall y | y in Filter(s[1..], p) ensures key(s[0]) < key(y) {
      assert y in s[1..];
      var k :| 0 <= k < |s[1..]| && s[1..][k] == y;
      assert s[k + 1] == y;
    }
  }

  /** A module-level id counter, starting at 0 and advanced by each id handed out. */
  class IdCounter {
    var next: nat

    constructor ()
      ensures next == 0
    {
      next := 0;
    }

    /** Returns the current value and increments the counter. */
    method Take() returns (id: nat)
      modifies this
      ensures id == old(next) && next == old(next) + 1
    {
      id := next;
      next := next + 1;
    }
  }
}
