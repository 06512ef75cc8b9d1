/** The two standard-library collection operations the presenter relies on:
    `Array(Set(xs))` and `firstIndex(of:)`. */
module Sequences {
  import opened Options

  /** The elements of a sequence, as a set. */
  function Elements<T>(s: seq<T>): set<T> {
    set x | x in s
  }

  ghost predicate NoDuplicates<T>(s: seq<T>) {
    forall i, j :: 0 <= i < j < |s| ==> s[i] != s[j]
  }

  /** What `Array(Set(s))` promises: every element of `s` exactly once, in no particular order. */
  ghost predicate IsDeduplication<T>(r: seq<T>, s: seq<T>) {
    NoDuplicates(r) && Elements(r) == Elements(s)
  }

  /** `Array(Set(s))`: Swift's `Set` iterates in an unspecified order, so the elements are
      taken out of the set in an arbitrary order. */
  method Deduplicate<T(==)>(s: seq<T>) returns (r: seq<T>)
    ensures NoDuplicates(r)
    ensures Elements(r) == Elements(s)
  {
    var pending := Elements(s);
    r := [];
    while pending != {}
      invariant NoDuplicates(r)
      invariant Elements(r) + pending == Elements(s)
      invariant Elements(r) !! pending
      decreases pending
    {
      var x :| x in pending;
      r := r + [x];
      pending := pending - {x};
    }
  }

  /** A sequence without duplicates has as many elements as its set. */
  lemma {:induction false} DistinctCardinality<T>(s: seq<T>)
    requires NoDuplicates(s)
    ensures |Elements(s)| == |s|
  {
    if s != [] {
      var tail := s[1..];
      assert NoDuplicates(tail) by {
        forall i, j | 0 <= i < j < |tail| ensures tail[i] != tail[j] {
          assert tail[i] == s[i + 1] && tail[j] == s[j + 1];
        }
      }
      DistinctCardinality(tail);
      assert Elements(s) == {s[0]} + Elements(tail) by {
        assert s == [s[0]] + tail;
      }
      assert s[0] !in Elements(tail) by {
        forall k | 0 <= k < |tail| ensures tail[k] != s[0] {
          assert tail[k] == s[k + 1];
        }
      }
    }
  }

  /** Any two deduplications of the same sequence agree up to order. */
  lemma DeduplicationsAgree<T>(r1: seq<T>, r2: seq<T>, s: seq<T>)
    requires IsDeduplication(r1, s) && IsDeduplication(r2, s)
    ensures Elements(r1) == Elements(r2)
    ensures |r1| == |r2| == |Elements(s)|
  {
    DistinctCardinality(r1);
    DistinctCardinality(r2);
  }

  /** `s.firstIndex(of: x)`. */
  function FirstIndexOf<T(==)>(s: seq<T>, x: T): (r: Option<nat>)
    ensures r.None? <==> x !in s
    ensures r.Some? ==> r.value < |s| && s[r.value] == x
    ensures r.Some? ==> forall j :: 0 <= j < r.value ==> s[j] != x
  {
    if s == [] then None
    else if s[0] == x then Some(0)
    else
      match FirstIndexOf(s[1..], x)
      case None => None
      case Some(i) => Some(i + 1)
  }
}
