/**
 * Sorting names the way `sort.Strings` does, and the ascending listing of a
 * set of names that the registry promises.
 */
module Sorting {
  import opened Strings

  ghost predicate Sorted(s: seq<string>)
  {
    forall i, j :: 0 <= i < j < |s| ==> LessEq(s[i], s[j])
  }

  ghost predicate StrictlySorted(s: seq<string>)
  {
    forall i, j :: 0 <= i < j < |s| ==> Less(s[i], s[j])
  }

  ghost predicate Distinct(s: seq<string>)
  {
    forall i, j :: 0 <= i < j < |s| ==> s[i] != s[j]
  }

  /** Inserts `x` into the sorted `s` before the first element not below it. */
  function Insert(s: seq<string>, x: string): (r: seq<string>)
    requires Sorted(s)
    ensures multiset(r) == multiset(s) + multiset{x}
    ensures Sorted(r)
    decreases |s|
  {
    if s == [] then [x]
    else if LessEq(x, s[0]) then
      InsertFront(s, x);
      [x] + s
    else
      LessEqTotal(x, s[0]);
      var tail := Insert(s[1..], x);
      assert s == [s[0]] + s[1..];
      assert multiset(tail) == multiset(s[1..]) + multiset{x};
      InsertBehind(s, x, tail);
      [s[0]] + tail
  }

  lemma InsertFront(s: seq<string>, x: string)
    requires Sorted(s) && s != [] && LessEq(x, s[0])
    ensures Sorted([x] + s)
  {
    var r := [x] + s;
    forall i, j | 0 <= i < j < |r| ensures LessEq(r[i], r[j]) {
      if i == 0 && j > 1 {
        LessEqTransitive(x, s[0], s[j - 1]);
      }
    }
  }

  lemma InsertBehind(s: seq<string>, x: string, tail: seq<string>)
    requires Sorted(s) && s != [] && LessEq(s[0], x)
    requires Sorted(tail) && multiset(tail) == multiset(s[1..]) + multiset{x}
    ensures Sorted([s[0]] + tail)
  {
    var r := [s[0]] + tail;
    forall i, j | 0 <= i < j < |r| ensures LessEq(r[i], r[j]) {
      if i == 0 {
        var y := tail[j - 1];
        assert y in multiset(tail);
        if y != x {
          assert y in multiset(s[1..]);
          var k :| 0 <= k < |s[1..]| && s[1..][k] == y;
          assert s[k + 1] == y;
        }
      }
    }
  }

  /** The result of `sort.Strings`: the same names, in ascending order. */
  function SortStrings(s: seq<string>): (r: seq<string>)
    ensures Sorted(r)
    ensures multiset(r) == multiset(s)
    decreases |s|
  {
    if s == [] then []
    else
      assert s == [s[0]] + s[1..];
      Insert(SortStrings(s[1..]), s[0])
  }

  lemma {:induction false} DistinctCount(s: seq<string>, x: string)
    requires Distinct(s)
    ensures multiset(s)[x] <= 1
    decreases |s|
  {
    if s != [] {
      assert s == [s[0]] + s[1..];
      assert Distinct(s[1..]);
      DistinctCount(s[1..], x);
      if x == s[0] {
        assert x !in s[1..];
      }
    }
  }

  lemma RepeatedCount(s: seq<string>, i: int, j: int)
    requires 0 <= i < j < |s| && s[i] == s[j]
    ensures multiset(s)[s[i]] >= 2
  {
    assert s == s[..i] + [s[i]] + s[i + 1..j] + [s[j]] + s[j + 1..];
  }

  /** A rearrangement of distinct names is distinct. */
  lemma {:induction false} DistinctPermutation(a: seq<string>, b: seq<string>)
    requires Distinct(a) && multiset(a) == multiset(b)
    ensures Distinct(b)
  {
    forall i, j | 0 <= i < j < |b| ensures b[i] != b[j] {
      if b[i] == b[j] {
        RepeatedCount(b, i, j);
        DistinctCount(a, b[i]);
      }
    }
  }

  lemma SortedDistinctIsStrict(s: seq<string>)
    requires Sorted(s) && Distinct(s)
    ensures StrictlySorted(s)
  {
  }

  /** Some element of a non-empty set of names is below all the others. */
  lemma {:induction false} MinimumExists(keys: set<string>)
    requires keys != {}
    ensures exists m :: m in keys && forall k :: k in keys ==> LessEq(m, k)
    decreases keys
  {
    var x :| x in keys;
    if keys == {x} {
      LessEqReflexive(x);
      assert forall k :: k in keys ==> LessEq(x, k);
    } else {
      MinimumExists(keys - {x});
      var m :| m in keys - {x} && forall k :: k in keys - {x} ==> LessEq(m, k);
      LessEqTotal(x, m);
      if LessEq(x, m) {
        forall k | k in keys ensures LessEq(x, k) {
          if k == x { LessEqReflexive(x); } else { LessEqTransitive(x, m, k); }
        }
      } else {
        assert forall k :: k in keys ==> LessEq(m, k);
      }
    }
  }

  /** The names of `keys`, each once, in ascending order. */
  ghost function SortedKeys(keys: set<string>): (s: seq<string>)
    ensures StrictlySorted(s)
    ensures forall k :: k in s <==> k in keys
    decreases keys
  {
    if keys == {} then []
    else
      MinimumExists(keys);
      var m :| m in keys && forall k :: k in keys ==> LessEq(m, k);
      var rest := SortedKeys(keys - {m});
      assert forall j :: 0 <= j < |rest| ==> Less(m, rest[j]) by {
        forall j | 0 <= j < |rest| ensures Less(m, rest[j]) {
          assert rest[j] in keys - {m};
        }
      }
      [m] + rest
  }

  /** Two ascending, repetition-free listings of the same names are equal. */
  lemma {:induction false} StrictlySortedUnique(a: seq<string>, b: seq<string>)
    requires StrictlySorted(a) && StrictlySorted(b)
    requires forall x :: x in a <==> x in b
    ensures a == b
    decreases |a|
  {
    if b != [] {
      assert b[0] in a;
    }
    if a != [] {
      assert a[0] in a;
      assert b != [];
      assert b[0] in b;
      var i :| 0 <= i < |a| && a[i] == b[0];
      var j :| 0 <= j < |b| && b[j] == a[0];
      if i != 0 && j != 0 {
        LessEqAntisymmetric(a[0], b[0]);
      }
      assert a[0] == b[0];
      forall x ensures x in a[1..] <==> x in b[1..] {
        if x in a[1..] {
          var p :| 1 <= p < |a| && a[p] == x;
          assert x in b;
        }
        if x in b[1..] {
          var p :| 1 <= p < |b| && b[p] == x;
          assert x in a;
        }
      }
      StrictlySortedUnique(a[1..], b[1..]);
      assert a == [a[0]] + a[1..];
      assert b == [b[0]] + b[1..];
    }
  }

  lemma SortedKeysOfListing(s: seq<string>, keys: set<string>)
    requires StrictlySorted(s) && forall k :: k in s <==> k in keys
    ensures s == SortedKeys(keys)
  {
    StrictlySortedUnique(s, SortedKeys(keys));
  }

  /** The listing of one name. */
  lemma SortedKeysSingle(a: string)
    ensures SortedKeys({a}) == [a]
  {
    SortedKeysOfListing([a], {a});
  }

  /** The listing of two names, the smaller first. */
  lemma SortedKeysPair(a: string, b: string)
    requires Less(a, b)
    ensures SortedKeys({a, b}) == [a, b]
  {
    SortedKeysOfListing([a, b], {a, b});
  }
}
