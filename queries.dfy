/**
 * The parts of a JPQL query the core relies on: a WHERE filter that keeps
 * table order, and findFirst on the result list.
 */
module Queries {
  import opened Wrappers

  /** The rows of `s` that satisfy `p`, in the order of `s`. */
  function Filter<T(!new)>(s: seq<T>, p: T -> bool): (r: seq<T>)
    ensures |r| <= |s|
    ensures forall x :: x in r <==> x in s && p(x)
  {
    if s == [] then []
    else (if p(s[0]) then [s[0]] else []) + Filter(s[1..], p)
  }

  /** `stream().findFirst()` of a result list. */
  function First<T>(s: seq<T>): (r: Option<T>)
    ensures r.None? <==> s == []
    ensures r.Some? ==> r.value in s
  {
    if s == [] then None else Some(s[0])
  }

  /** The keys of `s` strictly increase: every row occurs once, ordered by key. */
  ghost predicate Ascending<T>(s: seq<T>, key: T -> int) {
    forall i, j :: 0 <= i < j < |s| ==> key(s[i]) < key(s[j])
  }

  /** A filter of a table kept in key order is itself in key order. */
  lemma {:induction false} FilterAscending<T(!new)>(s: seq<T>, p: T -> bool, key: T -> int)
    ensures Ascending(s, key) ==> Ascending(Filter(s, p), key)
  {
    if s != [] && Ascending(s, key) {
      FilterAscending(s[1..], p, key);
      var tail := Filter(s[1..], p);
      forall x | x in tail ensures key(s[0]) < key(x) {
        var k :| 0 <= k < |s[1..]| && s[1..][k] == x;
        assert s[k + 1] == x;
      }
    }
  }

  /** The first row of a key-ordered sequence has the least key of all its rows. */
  lemma FirstIsLeast<T(!new)>(s: seq<T>, key: T -> int)
    requires Ascending(s, key) && s != []
    ensures forall x :: x in s ==> key(s[0]) <= key(x)
  {
    forall x | x in s ensures key(s[0]) <= key(x) {
      var k :| 0 <= k < |s| && s[k] == x;
    }
  }
}
