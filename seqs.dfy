/**
 * The order-preserving `filter` that the app applies to record lists (records of one kind,
 * appointments of one day, the digits of a phone), defined once with the facts every
 * instance relies on.
 */
module Seqs {

  /** The elements of `s` that `keep` accepts, in their order in `s`. */
  function Filter<T>(s: seq<T>, keep: T -> bool): seq<T>
  {
    if |s| == 0 then [] else Filter(s[..|s| - 1], keep) + (if keep(s[|s| - 1]) then [s[|s| - 1]] else [])
  }

  /** Each accepted element is kept as often as it occurs, and nothing else is kept. */
  lemma {:induction false} FilterCounts<T(!new)>(s: seq<T>, keep: T -> bool)
    ensures |Filter(s, keep)| <= |s|
    ensures forall x :: multiset(Filter(s, keep))[x] == if keep(x) then multiset(s)[x] else 0
  {
    if |s| > 0 {
      var init, last := s[..|s| - 1], s[|s| - 1];
      var tail := if keep(last) then [last] else [];
      FilterCounts(init, keep);
      assert s == init + [last];
      assert multiset(s) == multiset(init) + multiset{last};
      assert multiset(Filter(s, keep)) == multiset(Filter(init, keep)) + multiset(tail);
      forall x
        ensures multiset(Filter(s, keep))[x] == if keep(x) then multiset(s)[x] else 0
      {
        assert multiset(tail)[x] == if keep(x) then multiset{last}[x] else 0;
      }
    }
  }

  /** Every kept element is accepted and comes from the input; every accepted input element is kept. */
  lemma FilterMembers<T(!new)>(s: seq<T>, keep: T -> bool)
    ensures forall i :: 0 <= i < |Filter(s, keep)| ==> keep(Filter(s, keep)[i]) && Filter(s, keep)[i] in s
    ensures forall i :: 0 <= i < |s| && keep(s[i]) ==> s[i] in Filter(s, keep)
  {
    var r := Filter(s, keep);
    FilterCounts(s, keep);
    assert forall i :: 0 <= i < |r| ==> multiset(r)[r[i]] > 0;
    assert forall i :: 0 <= i < |s| ==> multiset(s)[s[i]] > 0;
  }

  /** Filtering distributes over concatenation, so the kept elements keep their relative order. */
  lemma {:induction false} FilterAppend<T>(a: seq<T>, b: seq<T>, keep: T -> bool)
    ensures Filter(a + b, keep) == Filter(a, keep) + Filter(b, keep)
  {
    if |b| == 0 {
      assert a + b == a;
    } else {
      assert (a + b)[..|a + b| - 1] == a + b[..|b| - 1];
      assert (a + b)[|a + b| - 1] == b[|b| - 1];
      FilterAppend(a, b[..|b| - 1], keep);
    }
  }

  /** A one-element list is kept or dropped whole. */
  lemma FilterSingle<T>(x: T, keep: T -> bool)
    ensures Filter([x], keep) == if keep(x) then [x] else []
  {
    assert [x][..0] == [];
  }

  /** A list whose every element is accepted is its own filter. */
  lemma {:induction false} FilterAll<T>(s: seq<T>, keep: T -> bool)
    requires forall i :: 0 <= i < |s| ==> keep(s[i])
    ensures Filter(s, keep) == s
  {
    if |s| > 0 {
      var init, last := s[..|s| - 1], s[|s| - 1];
      assert forall i :: 0 <= i < |init| ==> keep(init[i]) by {
        assert forall i :: 0 <= i < |init| ==> init[i] == s[i];
      }
      FilterAll(init, keep);
      assert s == init + [last];
    }
  }
}
