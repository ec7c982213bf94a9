/** Sequence helpers shared by the search and paint models. */
module Seqs {
  /** No element occurs twice. */
  predicate Distinct<T(==)>(s: seq<T>) {
    forall i, j :: 0 <= i < j < |s| ==> s[i] != s[j]
  }

  /** `seen` extended by the elements of `s` not seen before, in order of first appearance. */
  function AppendNew<T(==)>(seen: seq<T>, s: seq<T>): (r: seq<T>)
    decreases |s|
  {
    if s == [] then seen
    else
      var prev := AppendNew(seen, s[..|s| - 1]);
      if s[|s| - 1] in prev then prev else prev + [s[|s| - 1]]
  }

  /** Extending by `a` then by `b` is extending by `a + b`. */
  lemma {:induction false} AppendNewConcat<T>(seen: seq<T>, a: seq<T>, b: seq<T>)
    ensures AppendNew(AppendNew(seen, a), b) == AppendNew(seen, a + b)
    decreases |b|
  {
    if b == [] {
      assert a + b == a;
    } else {
      AppendNewConcat(seen, a, b[..|b| - 1]);
      assert (a + b)[..|a + b| - 1] == a + b[..|b| - 1];
    }
  }

  /** `s` without repetitions, each element where it first appears. */
  function Dedup<T(==)>(s: seq<T>): seq<T> {
    AppendNew([], s)
  }

  /** Deduplication keeps every element once and adds nothing. */
  lemma {:induction false} AppendNewElements<T>(seen: seq<T>, s: seq<T>)
    requires Distinct(seen)
    ensures Distinct(AppendNew(seen, s))
    ensures forall x :: x in AppendNew(seen, s) <==> x in seen || x in s
    decreases |s|
  {
    if s != [] {
      AppendNewElements(seen, s[..|s| - 1]);
      assert forall x :: x in s <==> x in s[..|s| - 1] || x == s[|s| - 1];
    }
  }

  /**
   * Deduplication keeps order: of two first occurrences in `s`, the earlier
   * one comes first among the keys.
   */
  lemma {:induction false} DedupOrder<T>(s: seq<T>, i: nat, j: nat)
    requires i < j < |s| && s[i] !in s[..i] && s[j] !in s[..j]
    ensures exists m, n :: 0 <= m < n < |Dedup(s)| && Dedup(s)[m] == s[i] && Dedup(s)[n] == s[j]
    decreases |s|
  {
    var init := s[..|s| - 1];
    AppendNewElements([], init);
    if j < |s| - 1 {
      assert init[..i] == s[..i] && init[..j] == s[..j];
      DedupOrder(init, i, j);
      var m, n :| 0 <= m < n < |Dedup(init)| && Dedup(init)[m] == s[i] && Dedup(init)[n] == s[j];
      assert Dedup(s)[m] == s[i] && Dedup(s)[n] == s[j];
    } else {
      assert init == s[..j];
      assert s[i] in init;
      var m :| 0 <= m < |Dedup(init)| && Dedup(init)[m] == s[i];
      assert Dedup(s) == Dedup(init) + [s[j]];
      assert Dedup(s)[m] == s[i] && Dedup(s)[|Dedup(init)|] == s[j];
    }
  }
}
