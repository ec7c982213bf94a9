/**
 * Ranking of the fused entries in `search_products`: Python's stable sort on
 * the score alone (descending), the keyword gate, and the `[:k]` slice.
 */
module Ranking {
  import opened Fusion

  /** Scores never increase along the list. */
  predicate SortedDesc(s: seq<Entry>) {
    forall i, j :: 0 <= i < j < |s| ==> s[i].score >= s[j].score
  }

  /**
   * Inserts `x` behind every element whose score is at least its own, looking
   * from the end: the step of a stable insertion sort.
   */
  function InsertByScore(sorted: seq<Entry>, x: Entry): (r: seq<Entry>)
    ensures |r| == |sorted| + 1
    decreases |sorted|
  {
    if sorted == [] || sorted[|sorted| - 1].score >= x.score then sorted + [x]
    else InsertByScore(sorted[..|sorted| - 1], x) + [sorted[|sorted| - 1]]
  }

  /** The stable sort of `s` by descending score, as Python's `list.sort(key=score, reverse=True)` leaves it. */
  function SortByScore(s: seq<Entry>): (r: seq<Entry>)
    ensures |r| == |s|
    decreases |s|
  {
    if s == [] then [] else InsertByScore(SortByScore(s[..|s| - 1]), s[|s| - 1])
  }

  /** Insertion adds exactly the inserted element. */
  lemma {:induction false} InsertByScorePermutes(sorted: seq<Entry>, x: Entry)
    ensures multiset(InsertByScore(sorted, x)) == multiset(sorted) + multiset{x}
    decreases |sorted|
  {
    if !(sorted == [] || sorted[|sorted| - 1].score >= x.score) {
      var init := sorted[..|sorted| - 1];
      assert sorted == init + [sorted[|sorted| - 1]];
      InsertByScorePermutes(init, x);
    }
  }

  /** The sort is a permutation of its input. */
  lemma {:induction false} SortByScorePermutes(s: seq<Entry>)
    ensures multiset(SortByScore(s)) == multiset(s)
    decreases |s|
  {
    if s != [] {
      assert s == s[..|s| - 1] + [s[|s| - 1]];
      SortByScorePermutes(s[..|s| - 1]);
      InsertByScorePermutes(SortByScore(s[..|s| - 1]), s[|s| - 1]);
    }
  }

  /** Inserting into a sorted list keeps it sorted. */
  lemma {:induction false} InsertSorted(sorted: seq<Entry>, x: Entry)
    requires SortedDesc(sorted)
    ensures SortedDesc(InsertByScore(sorted, x))
    ensures InsertByScore(sorted, x) != [] && InsertByScore(sorted, x)[0].score == (if sorted == [] || sorted[0].score < x.score then x.score else sorted[0].score)
    decreases |sorted|
  {
    if sorted != [] && sorted[|sorted| - 1].score < x.score {
      var init := sorted[..|sorted| - 1];
      var last := sorted[|sorted| - 1];
      InsertSorted(init, x);
      var r := InsertByScore(init, x);
      InsertByScorePermutes(init, x);
      forall i | 0 <= i < |r| ensures r[i].score >= last.score {
        assert r[i] in multiset(r);
        if r[i] != x {
          assert r[i] in init;
        }
      }
    }
  }

  /** The sort's result is ordered by descending score. */
  lemma {:induction false} SortByScoreSorted(s: seq<Entry>)
    ensures SortedDesc(SortByScore(s))
    decreases |s|
  {
    if s != [] {
      SortByScoreSorted(s[..|s| - 1]);
      InsertSorted(SortByScore(s[..|s| - 1]), s[|s| - 1]);
    }
  }

  /** The elements of `s` whose score is `v`, in order. */
  function WithScore(s: seq<Entry>, v: real): seq<Entry>
    decreases |s|
  {
    if s == [] then []
    else WithScore(s[..|s| - 1], v) + (if s[|s| - 1].score == v then [s[|s| - 1]] else [])
  }

  /** Inserting `x` appends it to its score class and leaves the other classes as they were. */
  lemma {:induction false} InsertStable(sorted: seq<Entry>, x: Entry, v: real)
    ensures WithScore(InsertByScore(sorted, x), v) == WithScore(sorted, v) + (if x.score == v then [x] else [])
    decreases |sorted|
  {
    if sorted == [] || sorted[|sorted| - 1].score >= x.score {
      assert (sorted + [x])[..|sorted|] == sorted;
    } else {
      var init := sorted[..|sorted| - 1];
      var last := sorted[|sorted| - 1];
      InsertStable(init, x, v);
      var r := InsertByScore(init, x);
      assert (r + [last])[..|r|] == r;
    }
  }

  /**
   * Stability: for every score, the entries with that score appear in the
   * sorted list in the order they had before sorting.
   */
  lemma {:induction false} SortByScoreStable(s: seq<Entry>, v: real)
    ensures WithScore(SortByScore(s), v) == WithScore(s, v)
    decreases |s|
  {
    if s != [] {
      SortByScoreStable(s[..|s| - 1], v);
      InsertStable(SortByScore(s[..|s| - 1]), s[|s| - 1], v);
    }
  }

  // ----- Keyword gate -----

  /** The entries with a positive normalised keyword score, in order. */
  function WithKeyword(s: seq<Entry>): (r: seq<Entry>)
    ensures forall i :: 0 <= i < |r| ==> r[i].norm.kw > 0.0 && r[i] in s
    ensures forall i :: 0 <= i < |s| && s[i].norm.kw > 0.0 ==> s[i] in r
    ensures (exists i :: 0 <= i < |s| && s[i].norm.kw > 0.0) ==> r != []
    ensures |s| == 1 ==> r == if s[0].norm.kw > 0.0 then s else []
    decreases |s|
  {
    if s == [] then []
    else
      var init := WithKeyword(s[..|s| - 1]);
      assert forall i :: 0 <= i < |s| - 1 ==> s[..|s| - 1][i] == s[i];
      init + (if s[|s| - 1].norm.kw > 0.0 then [s[|s| - 1]] else [])
  }

  /**
   * The filter works piece by piece: filtering a concatenation is filtering
   * each part, so the kept entries stay in their relative order.
   */
  lemma {:induction false} WithKeywordAppend(a: seq<Entry>, b: seq<Entry>)
    ensures WithKeyword(a + b) == WithKeyword(a) + WithKeyword(b)
    decreases |b|
  {
    if b != [] {
      var init := b[..|b| - 1];
      assert (a + b)[..|a + b| - 1] == a + init;
      WithKeywordAppend(a, init);
    } else {
      assert a + b == a;
    }
  }

  /** Filtering keeps descending order. */
  lemma {:induction false} WithKeywordSorted(s: seq<Entry>)
    requires SortedDesc(s)
    ensures SortedDesc(WithKeyword(s))
    decreases |s|
  {
    if s != [] {
      var init := s[..|s| - 1];
      WithKeywordSorted(init);
      var r := WithKeyword(init);
      forall i | 0 <= i < |r| ensures r[i].score >= s[|s| - 1].score {
        assert r[i] in init;
      }
    }
  }

  /**
   * The keyword gate: with the gate on and some entry having a positive
   * keyword score, only those entries remain (falling back to all entries if
   * none would, which cannot happen once one exists).
   */
  function Gate(results: seq<Entry>, requireKw: bool): seq<Entry> {
    if requireKw && exists i :: 0 <= i < |results| && results[i].norm.kw > 0.0 then
      var kept := WithKeyword(results);
      if kept != [] then kept else results
    else results
  }

  /**
   * The gate's guarantees: when it fires, the gated list is the filter, whose
   * entries are exactly the keyword-matched ones; otherwise nothing changes;
   * it never empties a list and keeps a sorted list sorted.
   */
  lemma GateProperties(results: seq<Entry>, requireKw: bool)
    ensures var g := Gate(results, requireKw);
      && (requireKw && (exists i :: 0 <= i < |results| && results[i].norm.kw > 0.0) ==>
            && g == WithKeyword(results)
            && (forall i :: 0 <= i < |g| ==> g[i].norm.kw > 0.0)
            && (forall e :: e in g <==> e in results && e.norm.kw > 0.0))
      && (!requireKw || (forall i :: 0 <= i < |results| ==> results[i].norm.kw <= 0.0) ==> g == results)
      && (results != [] ==> g != [])
      && (SortedDesc(results) ==> SortedDesc(g))
  {
    if SortedDesc(results) {
      WithKeywordSorted(results);
    }
  }

  /** The gate as the source runs it: an `any(...)` scan, then a filtering comprehension with `or results` as fallback. */
  method KeywordGate(results: seq<Entry>, requireKw: bool) returns (gated: seq<Entry>)
    ensures gated == Gate(results, requireKw)
  {
    var anyKw := false;
    for i := 0 to |results|
      invariant anyKw <==> exists j :: 0 <= j < i && results[j].norm.kw > 0.0
    {
      if results[i].norm.kw > 0.0 {
        anyKw := true;
      }
    }
    gated := results;
    if requireKw && anyKw {
      var kept := [];
      for i := 0 to |results|
        invariant kept == WithKeyword(results[..i])
      {
        assert results[..i + 1][..i] == results[..i];
        if results[i].norm.kw > 0.0 {
          kept := kept + [results[i]];
        }
      }
      assert results[..|results|] == results;
      if kept != [] {
        gated := kept;
      }
    }
  }

  // ----- Truncation -----

  /** Python's `s[:k]`: the first `k` elements, or all but the last `-k` when `k` is negative. */
  function PyPrefix<T>(s: seq<T>, k: int): (r: seq<T>)
    ensures |r| <= |s| && r == s[..|r|]
    ensures k >= 0 ==> |r| == if k < |s| then k else |s|
    ensures k < 0 ==> |r| == if |s| + k > 0 then |s| + k else 0
  {
    if k >= 0 then (if k < |s| then s[..k] else s)
    else if |s| + k > 0 then s[..|s| + k] else []
  }

  // ----- The ranking pipeline: sort, gate, truncate -----

  /** The source's ranking of a list of entries: stable sort by score, keyword gate, then `[:k]`. */
  function Ranked(es: seq<Entry>, requireKw: bool, k: int): seq<Entry> {
    PyPrefix(Gate(SortByScore(es), requireKw), k)
  }

  /** Filtering never lengthens a list. */
  lemma {:induction false} WithKeywordLength(s: seq<Entry>)
    ensures |WithKeyword(s)| <= |s|
    decreases |s|
  {
    if s != [] {
      WithKeywordLength(s[..|s| - 1]);
    }
  }

  /**
   * The ranked list is sorted, has at most `k` entries and no more than the
   * input, and its scores are bounded by the head of the gated list, which is
   * empty exactly when the input is.
   */
  lemma RankedSorted(es: seq<Entry>, requireKw: bool, k: int)
    ensures var g := Gate(SortByScore(es), requireKw); var res := Ranked(es, requireKw, k);
      && SortedDesc(res)
      && |res| <= |es| && (k >= 0 ==> |res| <= k)
      && (g == [] <==> es == [])
      && (forall i :: 0 <= i < |res| ==> res[i].score <= (if g == [] then 0.0 else g[0].score))
  {
    var sorted := SortByScore(es);
    var g := Gate(sorted, requireKw);
    assert SortedDesc(g) && (sorted != [] ==> g != []) && |g| <= |sorted| by {
      SortByScoreSorted(es);
      GateProperties(sorted, requireKw);
      WithKeywordLength(sorted);
    }
    var res := Ranked(es, requireKw, k);
    assert res == g[..|res|];
    forall i | 0 <= i < |res| ensures res[i].score <= (if g == [] then 0.0 else g[0].score) {
      assert res[i] == g[i];
    }
  }

  /** Every ranked entry, and the head of the gated list, is one of the input entries. */
  lemma RankedMembers(es: seq<Entry>, requireKw: bool, k: int)
    ensures var g := Gate(SortByScore(es), requireKw);
      && (forall e :: e in Ranked(es, requireKw, k) ==> e in es)
      && (g != [] ==> g[0] in es)
  {
    var sorted := SortByScore(es);
    SortByScorePermutes(es);
    var g := Gate(sorted, requireKw);
    assert forall e :: e in g ==> e in sorted;
    var res := Ranked(es, requireKw, k);
    assert res == g[..|res|];
    forall e | e in g ensures e in es {
      assert e in multiset(sorted);
    }
    if g != [] {
      assert g[0] in g;
    }
  }

  /**
   * With the gate on and some entry matched by keyword, the gated list is the
   * sorted keyword-matched entries in order, and every ranked entry has a
   * positive keyword score.
   */
  lemma RankedGate(es: seq<Entry>, k: int)
    requires exists i :: 0 <= i < |es| && es[i].norm.kw > 0.0
    ensures Gate(SortByScore(es), true) == WithKeyword(SortByScore(es))
    ensures forall e :: e in Gate(SortByScore(es), true) <==> e in es && e.norm.kw > 0.0
    ensures forall i :: 0 <= i < |Ranked(es, true, k)| ==> Ranked(es, true, k)[i].norm.kw > 0.0
  {
    var sorted := SortByScore(es);
    SortKeepsKeyword(es);
    GatedMembers(es, true);
    var g := Gate(sorted, true);
    assert g == WithKeyword(sorted);
    var res := Ranked(es, true, k);
    assert res == g[..|res|];
    forall n | 0 <= n < |res| ensures res[n].norm.kw > 0.0 {
      assert res[n] == g[n];
    }
  }

  /** Sorting keeps an entry matched by keyword. */
  lemma SortKeepsKeyword(es: seq<Entry>)
    requires exists i :: 0 <= i < |es| && es[i].norm.kw > 0.0
    ensures exists i :: 0 <= i < |SortByScore(es)| && SortByScore(es)[i].norm.kw > 0.0
  {
    var sorted := SortByScore(es);
    var i :| 0 <= i < |es| && es[i].norm.kw > 0.0;
    SortByScorePermutes(es);
    assert es[i] in multiset(sorted);
    var j :| 0 <= j < |sorted| && sorted[j] == es[i];
  }

  /** Sorting keeps exactly the input entries. */
  lemma SortedMembers(es: seq<Entry>)
    ensures forall e :: e in SortByScore(es) <==> e in es
  {
    SortByScorePermutes(es);
    forall e ensures e in SortByScore(es) <==> e in es {
      assert e in SortByScore(es) <==> e in multiset(SortByScore(es));
    }
  }

  /**
   * The gated list holds exactly the input entries, restricted to the
   * keyword-matched ones when the gate fires.
   */
  lemma GatedMembers(es: seq<Entry>, requireKw: bool)
    ensures forall e :: e in Gate(SortByScore(es), requireKw) <==>
      e in es && (requireKw && (exists i :: 0 <= i < |es| && es[i].norm.kw > 0.0) ==> e.norm.kw > 0.0)
  {
    var sorted := SortByScore(es);
    SortedMembers(es);
    if requireKw && (exists i :: 0 <= i < |es| && es[i].norm.kw > 0.0) {
      SortKeepsKeyword(es);
      GateProperties(sorted, requireKw);
    } else {
      assert forall i :: 0 <= i < |sorted| ==> sorted[i].norm.kw <= 0.0 || !requireKw by {
        forall i | 0 <= i < |sorted| && requireKw ensures sorted[i].norm.kw <= 0.0 {
          assert sorted[i] in es;
        }
      }
      GateProperties(sorted, requireKw);
    }
  }

  /** The head of the gated list, which gives the confidence, is an input entry scoring at least every gated entry. */
  lemma GatedHead(es: seq<Entry>, requireKw: bool)
    ensures var g := Gate(SortByScore(es), requireKw);
      g != [] ==> g[0] in es && forall e :: e in g ==> e.score <= g[0].score
  {
    var sorted := SortByScore(es);
    SortByScoreSorted(es);
    GateProperties(sorted, requireKw);
    GatedMembers(es, requireKw);
    var g := Gate(sorted, requireKw);
    if g != [] {
      assert g[0] in g;
      forall e | e in g ensures e.score <= g[0].score {
        var n :| 0 <= n < |g| && g[n] == e;
      }
    }
  }

  /** No two entries share a SKU. */
  predicate UniqueSkus(s: seq<Entry>) {
    forall i, j :: 0 <= i < j < |s| ==> s[i].sku != s[j].sku
  }

  /** Inserting an entry with a new SKU into a list of distinct SKUs keeps them distinct. */
  lemma {:induction false} InsertUnique(sorted: seq<Entry>, x: Entry)
    requires UniqueSkus(sorted)
    requires forall e :: e in sorted ==> e.sku != x.sku
    ensures UniqueSkus(InsertByScore(sorted, x))
    decreases |sorted|
  {
    if sorted == [] || sorted[|sorted| - 1].score >= x.score {
      assert UniqueSkus(sorted + [x]) by {
        forall i, j | 0 <= i < j < |sorted| + 1 ensures (sorted + [x])[i].sku != (sorted + [x])[j].sku {
          if j == |sorted| {
            assert sorted[i] in sorted;
          }
        }
      }
    } else {
      var init := sorted[..|sorted| - 1];
      var last := sorted[|sorted| - 1];
      assert forall e :: e in init ==> e in sorted;
      InsertUnique(init, x);
      var r := InsertByScore(init, x);
      InsertByScorePermutes(init, x);
      assert UniqueSkus(r + [last]) by {
        forall i, j | 0 <= i < j < |r| + 1 ensures (r + [last])[i].sku != (r + [last])[j].sku {
          if j == |r| {
            assert r[i] in multiset(r);
            if r[i] != x {
              var n :| 0 <= n < |init| && init[n] == r[i];
            }
          }
        }
      }
    }
  }

  /** Sorting keeps the SKUs distinct. */
  lemma {:induction false} SortUnique(s: seq<Entry>)
    requires UniqueSkus(s)
    ensures UniqueSkus(SortByScore(s))
    decreases |s|
  {
    if s != [] {
      var init := s[..|s| - 1];
      var x := s[|s| - 1];
      SortUnique(init);
      SortByScorePermutes(init);
      forall e | e in SortByScore(init) ensures e.sku != x.sku {
        assert e in multiset(SortByScore(init));
        var n :| 0 <= n < |init| && init[n] == e;
      }
      InsertUnique(SortByScore(init), x);
    }
  }

  /** Filtering keeps the SKUs distinct. */
  lemma {:induction false} WithKeywordUnique(s: seq<Entry>)
    requires UniqueSkus(s)
    ensures UniqueSkus(WithKeyword(s))
    decreases |s|
  {
    if s != [] {
      var init := s[..|s| - 1];
      WithKeywordUnique(init);
      var r := WithKeyword(init);
      forall i, j | 0 <= i < j < |WithKeyword(s)| ensures WithKeyword(s)[i].sku != WithKeyword(s)[j].sku {
        if j == |r| {
          var n :| 0 <= n < |init| && init[n] == r[i];
        }
      }
    }
  }

  /** Ranking entries with distinct SKUs gives results with distinct SKUs. */
  lemma RankedUnique(es: seq<Entry>, requireKw: bool, k: int)
    requires UniqueSkus(es)
    ensures UniqueSkus(Ranked(es, requireKw, k))
  {
    var sorted := SortByScore(es);
    SortUnique(es);
    WithKeywordUnique(sorted);
    var g := Gate(sorted, requireKw);
    assert UniqueSkus(g);
    var res := Ranked(es, requireKw, k);
    assert res == g[..|res|];
  }
}
