/** What the key and heart spawners share: the Fisher–Yates shuffle, the
    spawn-set construction (shuffle, take the first few, number them), the
    pickup marking and the rule for when touching an item picks it up. */
module Collectibles {
  import opened Common

  datatype ItemKind = KeyItem | HeartItem

  /** An item id: `key-<index>-<x,y,z>` or `heart-<index>-<x,y,z>`, kept as
      its parts rather than as text. */
  datatype ItemId = ItemId(kind: ItemKind, index: nat, position: Vec3)

  datatype Pickup = Pickup(id: ItemId, position: Vec3, collected: bool)

  ghost predicate Distinct<T>(s: seq<T>) {
    forall i, j :: 0 <= i < j < |s| ==> s[i] != s[j]
  }

  /** A value occurs at most once in a sequence without repeats. */
  lemma {:induction false} DistinctCountAtMostOne<T>(s: seq<T>, x: T)
    requires Distinct(s)
    ensures multiset(s)[x] <= 1
  {
    if s != [] {
      assert s == [s[0]] + s[1..];
      assert Distinct(s[1..]) by {
        forall i, j | 0 <= i < j < |s[1..]| ensures s[1..][i] != s[1..][j] {
          assert s[1..][i] == s[i + 1] && s[1..][j] == s[j + 1];
        }
      }
      DistinctCountAtMostOne(s[1..], x);
      if x == s[0] {
        assert x !in s[1..] by {
          forall k | 0 <= k < |s[1..]| ensures s[1..][k] != x {
            assert s[1..][k] == s[k + 1];
          }
        }
      }
    }
  }

  /** Two equal entries make a value occur at least twice. */
  lemma RepeatCountsTwice<T>(s: seq<T>, i: nat, j: nat)
    requires i < j < |s| && s[i] == s[j]
    ensures multiset(s)[s[i]] >= 2
  {
    assert s == s[..j] + [s[j]] + s[j + 1..];
    assert s[i] == s[..j][i];
    assert s[i] in multiset(s[..j]);
  }

  /** Reordering a sequence without repeats gives one without repeats. */
  lemma PermutationKeepsDistinct<T>(a: seq<T>, b: seq<T>)
    requires multiset(a) == multiset(b) && Distinct(a)
    ensures Distinct(b)
  {
    forall i, j | 0 <= i < j < |b| ensures b[i] != b[j] {
      if b[i] == b[j] {
        RepeatCountsTwice(b, i, j);
        DistinctCountAtMostOne(a, b[i]);
        assert false;
      }
    }
  }

  /** Fisher–Yates on a copy of the input: for `i` from the last index down
      to 1, swap entry `i` with a randomly chosen entry at or below it. The result is a
      reordering of the input, which itself is left alone. */
  method Shuffle<T>(input: seq<T>, samples: seq<real>) returns (out: seq<T>)
    requires |samples| >= |input| && AllSamples(samples)
    ensures |out| == |input| && multiset(out) == multiset(input)
  {
    if |input| == 0 {
      return [];
    }
    var arr := new T[|input|](k requires 0 <= k < |input| => input[k]);
    assert arr[..] == input;
    var i := arr.Length - 1;
    while i > 0
      invariant 0 <= i < arr.Length
      invariant multiset(arr[..]) == multiset(input)
    {
      var j := PickIndex(samples[i], i + 1);
      arr[i], arr[j] := arr[j], arr[i];
      i := i - 1;
    }
    out := arr[..];
  }

  /** One uncollected item per point, numbered by its place in the list. */
  function Number(kind: ItemKind, points: seq<Vec3>): (items: seq<Pickup>)
    ensures |items| == |points|
    ensures forall i :: 0 <= i < |items| ==>
      items[i].position == points[i] && !items[i].collected && items[i].id.index == i && items[i].id.kind == kind
  {
    seq(|points|, i requires 0 <= i < |points| => Pickup(ItemId(kind, i, points[i]), points[i], false))
  }

  function ItemPositions(items: seq<Pickup>): (ps: seq<Vec3>)
    ensures |ps| == |items| && forall i :: 0 <= i < |items| ==> ps[i] == items[i].position
  {
    seq(|items|, i requires 0 <= i < |items| => items[i].position)
  }

  /** `createSpawnSet`: `count` clamped into 0 to `|points|` uncollected items with
      distinct ids, placed on points taken from the list without repeats,
      so on distinct points when the list has none. */
  method CreateSpawnSet(kind: ItemKind, count: int, points: seq<Vec3>, samples: seq<real>)
    returns (items: seq<Pickup>)
    requires |samples| >= |points| && AllSamples(samples)
    ensures |items| == Max(0, Min(count, |points|))
    ensures forall i :: 0 <= i < |items| ==> !items[i].collected && items[i].id.kind == kind
    ensures forall i, j :: 0 <= i < j < |items| ==> items[i].id != items[j].id
    ensures multiset(ItemPositions(items)) <= multiset(points)
    ensures Distinct(points) ==> Distinct(ItemPositions(items))
  {
    var clamped := Max(0, Min(count, |points|));
    var shuffled := Shuffle(points, samples);
    var chosen := shuffled[..clamped];
    items := Number(kind, chosen);
    assert ItemPositions(items) == chosen;
    assert shuffled == chosen + shuffled[clamped..];
    if Distinct(points) {
      PermutationKeepsDistinct(points, shuffled);
    }
  }

  /** The pickup handler's list update: the item with the id becomes
      collected, every other item is left as it was. */
  function MarkCollected(items: seq<Pickup>, id: ItemId): (r: seq<Pickup>)
    ensures |r| == |items|
    ensures forall i :: 0 <= i < |items| ==>
      r[i] == (if items[i].id == id then items[i].(collected := true) else items[i])
  {
    seq(|items|, i requires 0 <= i < |items| =>
      if items[i].id == id then items[i].(collected := true) else items[i])
  }

  /** `handleEnter`: only an uncollected item touched by the player is
      picked up. */
  predicate PicksUp(collected: bool, otherIsPlayer: bool) {
    !collected && otherIsPlayer
  }

  /** JavaScript's slice length on a list of `len`: a negative end
      counts back from the end. */
  function SliceEnd(end: int, len: nat): (k: nat)
    ensures k <= len
    ensures 0 <= end ==> k == Min(end, len)
    ensures end < 0 ==> k == Max(0, len + end)
  {
    if end < 0 then Max(0, len + end) else Min(end, len)
  }
}
