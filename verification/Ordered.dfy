/** Ascending iteration over ordered containers: `std::map` and `std::set` visit their keys
    in order, and several operations depend on it. */
module Ordered {

  predicate Ascending(s: seq<nat>) {
    forall i, j :: 0 <= i < j < |s| ==> s[i] < s[j]
  }

  lemma MinExists(s: set<nat>, x: nat)
    requires x in s
    ensures exists m :: m in s && forall y :: y in s ==> m <= y
    decreases x
  {
    if y :| y in s && y < x { MinExists(s, y); }
  }

  /** First key in iteration order. */
  function Min(s: set<nat>): (m: nat)
    requires s != {}
    ensures m in s && forall y :: y in s ==> m <= y
  {
    var x :| x in s;
    MinExists(s, x);
    var m :| m in s && forall y :: y in s ==> m <= y;
    m
  }

  /** All keys in iteration order. */
  function Sorted(s: set<nat>): (r: seq<nat>)
    ensures Ascending(r)
    ensures forall x :: x in r <==> x in s
  {
    if s == {} then []
    else
      var m := Min(s);
      [m] + Sorted(s - {m})
  }

  /** Iteration order is determined by the keys alone. */
  lemma {:induction false} SortedIsUnique(s: seq<nat>, keys: set<nat>)
    requires Ascending(s) && forall x :: x in s <==> x in keys
    ensures Sorted(keys) == s
  {
    hide Sorted, Min;
    if s == [] {
      assert keys == {};
      SortedEmpty();
    } else {
      var m, rest := s[0], s[1..];
      assert m in keys;
      TailHasRest(s);
      MinIs(keys, m);
      SortedIsUnique(rest, keys - {m});
      SortedStep(keys);
    }
  }

  lemma SortedEmpty()
    ensures Sorted({}) == []
  {
  }

  lemma SortedStep(keys: set<nat>)
    requires keys != {}
    ensures Sorted(keys) == [Min(keys)] + Sorted(keys - {Min(keys)})
  {
  }

  lemma MinIs(keys: set<nat>, m: nat)
    requires m in keys && forall y :: y in keys ==> m <= y
    ensures Min(keys) == m
  {
  }

  lemma TailHasRest(s: seq<nat>)
    requires s != [] && Ascending(s)
    ensures Ascending(s[1..]) && (forall x :: x in s[1..] <==> x in s && x != s[0]) && forall x :: x in s ==> s[0] <= x
  {
    forall x ensures x in s[1..] <==> x in s && x != s[0] {
      if x in s[1..] {
        var i :| 0 <= i < |s[1..]| && s[1..][i] == x;
        assert s[i + 1] == x;
      }
      assert s == [s[0]] + s[1..];
    }
  }
}
