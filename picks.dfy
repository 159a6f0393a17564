/** Numbers of the game's universe 1..25 and the sorted listings the engine builds from a `Set`. */
module Picks {

  /** Size of a complete pick or draw. */
  const PickSize := 15

  predicate InUniverse(x: int) {
    1 <= x <= 25
  }

  predicate AllInUniverse(s: seq<int>) {
    forall i :: 0 <= i < |s| ==> InUniverse(s[i])
  }

  predicate SetInUniverse(s: set<int>) {
    forall x :: x in s ==> InUniverse(x)
  }

  predicate StrictlyAscending(s: seq<int>) {
    forall i, j :: 0 <= i < j < |s| ==> s[i] < s[j]
  }

  function Members(s: seq<int>): set<int> {
    set x | x in s
  }

  /** A pick as the generator may emit it: ascending (so duplicate-free) numbers of the universe. */
  predicate IsPick(s: seq<int>) {
    StrictlyAscending(s) && AllInUniverse(s) && |s| <= PickSize
  }

  /** The members of `s` from `lo` up to 25, in ascending order. */
  function Enumerate(s: set<int>, lo: int): (r: seq<int>)
    ensures StrictlyAscending(r)
    ensures forall x :: x in r <==> x in s && lo <= x <= 25
    decreases 26 - lo
  {
    if lo > 25 then []
    else
      var rest := Enumerate(s, lo + 1);
      assert forall k :: 0 <= k < |rest| ==> rest[k] in rest;
      if lo in s then [lo] + rest else rest
  }

  lemma {:induction false} AscendingCard(s: seq<int>)
    requires StrictlyAscending(s)
    ensures |Members(s)| == |s|
  {
    if s != [] {
      AscendingCard(s[1..]);
      assert Members(s) == {s[0]} + Members(s[1..]);
      assert s[0] !in Members(s[1..]);
    }
  }

  /** `Array.from(set).sort((a, b) => a - b)` for a set of universe numbers. */
  function SortedMembers(s: set<int>): (r: seq<int>)
    requires SetInUniverse(s)
    ensures StrictlyAscending(r) && AllInUniverse(r)
    ensures Members(r) == s && |r| == |s|
  {
    var r := Enumerate(s, 1);
    assert Members(r) == s;
    AscendingCard(r);
    r
  }

  /** Two ascending listings of the same numbers are the same listing. */
  lemma {:induction false} AscendingUnique(a: seq<int>, b: seq<int>)
    requires StrictlyAscending(a) && StrictlyAscending(b)
    requires Members(a) == Members(b)
    ensures a == b
  {
    if a == [] {
      AscendingCard(b);
    } else {
      assert b != [] by { assert a[0] in Members(a); }
      assert a[0] == b[0] by {
        assert a[0] in Members(b);
        assert b[0] in Members(a);
      }
      assert Members(a[1..]) == Members(b[1..]) by {
        assert Members(a) == {a[0]} + Members(a[1..]) && a[0] !in Members(a[1..]);
        assert Members(b) == {b[0]} + Members(b[1..]) && b[0] !in Members(b[1..]);
      }
      AscendingUnique(a[1..], b[1..]);
      assert a == [a[0]] + a[1..];
      assert b == [b[0]] + b[1..];
    }
  }
}
