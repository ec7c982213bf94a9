/**
 * Paint estimation: the greedy decomposition of a volume into paint cans
 * (`compute_cans`) and the estimate built on it (`estimate_paint`). All
 * quantities are exact reals; the source's final rounding to three decimals
 * is not modelled.
 */
module PaintEstimator {
  import opened Wrappers
  import opened Seqs

  /** The volume below which the greedy remainder is ignored (`1e-9`). */
  const Tolerance: real := 0.000000001

  /** The can sizes, in litres, used when none are given. */
  const DefaultSizes: seq<real> := [18.0, 3.6, 2.5, 0.9, 0.5]

  /** `max(x, 0.0)`. */
  function Max0(x: real): (r: real)
    ensures r >= 0.0 && r >= x && (r == x || r == 0.0)
  {
    if x > 0.0 then x else 0.0
  }

  // ----- Can sizes -----

  /** The positive sizes, in input order. */
  function Positive(sizes: seq<real>): (r: seq<real>)
    ensures forall i :: 0 <= i < |r| ==> r[i] > 0.0 && r[i] in sizes
    ensures forall x :: x in sizes && x > 0.0 ==> x in r
    decreases |sizes|
  {
    if sizes == [] then []
    else
      var init := sizes[..|sizes| - 1];
      var x := sizes[|sizes| - 1];
      assert forall y :: y in sizes ==> y in init || y == x;
      Positive(init) + (if x > 0.0 then [x] else [])
  }

  /** Non-increasing order. */
  predicate Descending(s: seq<real>) {
    forall i, j :: 0 <= i < j < |s| ==> s[i] >= s[j]
  }

  /** Inserts `x` into a descending list after every element at least as large. */
  function InsertDesc(sorted: seq<real>, x: real): (r: seq<real>)
    ensures |r| == |sorted| + 1
    decreases |sorted|
  {
    if sorted == [] || sorted[|sorted| - 1] >= x then sorted + [x]
    else InsertDesc(sorted[..|sorted| - 1], x) + [sorted[|sorted| - 1]]
  }

  /** `sorted(sizes, reverse=True)`, as an insertion sort. */
  function SortDesc(s: seq<real>): (r: seq<real>)
    ensures |r| == |s|
    decreases |s|
  {
    if s == [] then [] else InsertDesc(SortDesc(s[..|s| - 1]), s[|s| - 1])
  }

  lemma {:induction false} InsertDescPermutes(sorted: seq<real>, x: real)
    ensures multiset(InsertDesc(sorted, x)) == multiset(sorted) + multiset{x}
    decreases |sorted|
  {
    if !(sorted == [] || sorted[|sorted| - 1] >= x) {
      var init := sorted[..|sorted| - 1];
      InsertDescPermutes(init, x);
      assert sorted == init + [sorted[|sorted| - 1]];
    }
  }

  /** Sorting reorders the sizes and neither adds nor drops any. */
  lemma {:induction false} SortDescPermutes(s: seq<real>)
    ensures multiset(SortDesc(s)) == multiset(s)
    decreases |s|
  {
    if s != [] {
      var init := s[..|s| - 1];
      SortDescPermutes(init);
      InsertDescPermutes(SortDesc(init), s[|s| - 1]);
      assert s == init + [s[|s| - 1]];
    }
  }

  lemma {:induction false} InsertDescSorted(sorted: seq<real>, x: real)
    requires Descending(sorted)
    ensures Descending(InsertDesc(sorted, x))
    decreases |sorted|
  {
    if !(sorted == [] || sorted[|sorted| - 1] >= x) {
      var init := sorted[..|sorted| - 1];
      var last := sorted[|sorted| - 1];
      InsertDescSorted(init, x);
      InsertDescPermutes(init, x);
      var r := InsertDesc(init, x);
      forall i | 0 <= i < |r| ensures r[i] >= last {
        assert r[i] in multiset(r);
        if r[i] != x {
          assert r[i] in multiset(init);
          var j :| 0 <= j < |init| && init[j] == r[i];
          assert sorted[j] == init[j];
        }
      }
    }
  }

  /** The sorted sizes are in descending order. */
  lemma {:induction false} SortDescSorted(s: seq<real>)
    ensures Descending(SortDesc(s))
    decreases |s|
  {
    if s != [] {
      SortDescSorted(s[..|s| - 1]);
      InsertDescSorted(SortDesc(s[..|s| - 1]), s[|s| - 1]);
    }
  }

  /** The sizes the greedy loop visits: the positive ones, largest first. */
  function Sizes(canSizes: seq<real>): seq<real> {
    SortDesc(Positive(canSizes))
  }

  /** The visited sizes are descending, positive, taken from the input, and include every positive input size. */
  lemma SizesProperties(canSizes: seq<real>)
    ensures var sizes := Sizes(canSizes);
      && Descending(sizes)
      && (forall i :: 0 <= i < |sizes| ==> sizes[i] > 0.0 && sizes[i] in canSizes)
      && (forall x :: x in canSizes && x > 0.0 ==> x in sizes)
      && (sizes == [] <==> Positive(canSizes) == [])
  {
    var pos := Positive(canSizes);
    var sizes := Sizes(canSizes);
    SortDescSorted(pos);
    SortDescPermutes(pos);
    forall i | 0 <= i < |sizes| ensures sizes[i] > 0.0 && sizes[i] in canSizes {
      assert sizes[i] in multiset(pos);
    }
    forall x | x in canSizes && x > 0.0 ensures x in sizes {
      assert x in multiset(sizes);
    }
  }

  // ----- The greedy loop as a value -----

  /** The `cans` dictionary and the volume still to cover. */
  datatype Phase = Phase(qty: map<real, nat>, remaining: real)

  /** `cans[s]`; every visited size is a key. */
  function Count(qty: map<real, nat>, s: real): nat {
    if s in qty then qty[s] else 0
  }

  /** `math.ceil`: the least integer at or above `x`. */
  function Ceil(x: real): (c: int)
    ensures c as real >= x && (c as real) < x + 1.0
  {
    -((-x).Floor)
  }

  /** The body of the greedy loop for size `s`: `int(remaining // s)` cans of it. */
  function Take(st: Phase, s: real): Phase
    requires s > 0.0
  {
    var q := (st.remaining / s).Floor;
    if q > 0 then Phase(st.qty[s := Count(st.qty, s) + q], st.remaining - (q as real) * s) else st
  }

  /** The greedy loop over `sizes`, leaving it (`break`) once nothing remains. */
  function Greedy(sizes: seq<real>, st: Phase): Phase
    requires forall i :: 0 <= i < |sizes| ==> sizes[i] > 0.0
    decreases |sizes|
  {
    if sizes == [] || st.remaining <= 0.0 then st else Greedy(sizes[1..], Take(st, sizes[0]))
  }

  /** The top-up: `ceil(remaining / smallest)` more cans of the smallest size when more than the tolerance remains. */
  function TopUp(st: Phase, sizes: seq<real>): Phase
    requires forall i :: 0 <= i < |sizes| ==> sizes[i] > 0.0
  {
    if st.remaining > Tolerance && sizes != [] then
      var smallest := sizes[|sizes| - 1];
      var extra := Ceil(st.remaining / smallest);
      PositiveQuotient(st.remaining, smallest);
      Phase(st.qty[smallest := Count(st.qty, smallest) + extra], st.remaining - (extra as real) * smallest)
    else st
  }

  /** A positive volume over a positive size needs at least one can. */
  lemma PositiveQuotient(x: real, s: real)
    requires x > 0.0 && s > 0.0
    ensures Ceil(x / s) >= 1
  {
    assert x / s > 0.0;
  }

  /** The litres of the dictionary: `sum(size * qty)` over its keys. */
  function Liters(keys: seq<real>, qty: map<real, nat>): real
    decreases |keys|
  {
    if keys == [] then 0.0
    else Liters(keys[..|keys| - 1], qty) + keys[|keys| - 1] * (Count(qty, keys[|keys| - 1]) as real)
  }

  /** One can of the result: a size and how many of it. */
  datatype Can = Can(size: real, count: nat)

  /** The dictionary without its zero quantities, in key order. */
  function NonZero(keys: seq<real>, qty: map<real, nat>): seq<Can>
    decreases |keys|
  {
    if keys == [] then []
    else
      var k := keys[|keys| - 1];
      NonZero(keys[..|keys| - 1], qty) + (if Count(qty, k) > 0 then [Can(k, Count(qty, k))] else [])
  }

  /** A can with a positive count, one of the keys for its size, and the dictionary's count. */
  predicate Kept(c: Can, keys: seq<real>, qty: map<real, nat>) {
    c.count > 0 && c.size in keys && c.count == Count(qty, c.size)
  }

  /** Every can kept has a positive count, one of the keys for its size, and the dictionary's count. */
  lemma {:induction false} NonZeroMembers(keys: seq<real>, qty: map<real, nat>)
    ensures forall i :: 0 <= i < |NonZero(keys, qty)| ==> Kept(NonZero(keys, qty)[i], keys, qty)
    decreases |keys|
  {
    if keys != [] {
      var init := keys[..|keys| - 1];
      var k := keys[|keys| - 1];
      NonZeroMembers(init, qty);
      var rest := NonZero(init, qty);
      var r := NonZero(keys, qty);
      forall i | 0 <= i < |r| ensures Kept(r[i], keys, qty) {
        if i < |rest| {
          assert r[i] == rest[i];
          assert Kept(rest[i], init, qty);
          var j :| 0 <= j < |init| && init[j] == rest[i].size;
          assert keys[j] == init[j];
        } else {
          assert r[i] == Can(k, Count(qty, k));
        }
      }
    }
  }

  /** Strictly decreasing sizes. */
  predicate Decreasing(cans: seq<Can>) {
    forall i, j :: 0 <= i < j < |cans| ==> cans[i].size > cans[j].size
  }

  /** The litres of a list of cans. */
  function CansLiters(cans: seq<Can>): real
    decreases |cans|
  {
    if cans == [] then 0.0
    else CansLiters(cans[..|cans| - 1]) + cans[|cans| - 1].size * (cans[|cans| - 1].count as real)
  }

  /** The number of cans. */
  function CansCount(cans: seq<Can>): nat
    decreases |cans|
  {
    if cans == [] then 0 else CansCount(cans[..|cans| - 1]) + cans[|cans| - 1].count
  }

  /** What `compute_cans` returns. */
  datatype CanPlan = CanPlan(cans: seq<Can>, totalLiters: real, waste: real)

  /** `{s: 0 for s in sizes}`. */
  function Zeros(sizes: seq<real>): (qty: map<real, nat>)
    ensures forall s :: s in sizes ==> Count(qty, s) == 0
  {
    map s | s in sizes :: 0
  }

  /** The dictionary after the greedy loop and the top-up. */
  function FinalPhase(litersNeeded: real, canSizes: seq<real>): Phase {
    var sizes := Sizes(canSizes);
    SizesProperties(canSizes);
    TopUp(Greedy(sizes, Phase(Zeros(sizes), Max0(litersNeeded))), sizes)
  }

  /** `compute_cans` as a value. */
  function Plan(litersNeeded: real, canSizes: seq<real>): CanPlan {
    var keys := Dedup(Sizes(canSizes));
    var st := FinalPhase(litersNeeded, canSizes);
    var total := Liters(keys, st.qty);
    CanPlan(NonZero(keys, st.qty), total, Max0(total - litersNeeded))
  }

  /**
   * `compute_cans`: visits the positive sizes largest first, taking as many
   * whole cans of each as fit in what remains and leaving the loop once
   * nothing remains, then tops up with the smallest size, sums the litres and
   * drops the sizes with no cans.
   */
  method ComputeCans(litersNeeded: real, canSizes: seq<real>) returns (cans: seq<Can>, totalLiters: real, waste: real)
    ensures CanPlan(cans, totalLiters, waste) == Plan(litersNeeded, canSizes)
  {
    var sizes := Sizes(canSizes);
    SizesProperties(canSizes);
    var remaining := Max0(litersNeeded);
    var qty := Zeros(sizes);
    ghost var start := Phase(qty, remaining);

    qty, remaining := GreedyLoop(sizes, qty, remaining);
    assert Phase(qty, remaining) == Greedy(sizes, start);

    qty, remaining := TopUpStep(sizes, qty, remaining);
    assert Phase(qty, remaining) == FinalPhase(litersNeeded, canSizes);

    var keys := Dedup(sizes);
    totalLiters := SumLiters(keys, qty);
    waste := Max0(totalLiters - litersNeeded);
    cans := NonZero(keys, qty);
  }

  /** The `for s in sizes` loop of `compute_cans`, with its `break` once nothing remains. */
  method GreedyLoop(sizes: seq<real>, qty0: map<real, nat>, remaining0: real) returns (qty: map<real, nat>, remaining: real)
    requires forall i :: 0 <= i < |sizes| ==> sizes[i] > 0.0
    ensures Phase(qty, remaining) == Greedy(sizes, Phase(qty0, remaining0))
  {
    qty, remaining := qty0, remaining0;
    var i := 0;
    while i < |sizes|
      invariant 0 <= i <= |sizes|
      invariant Greedy(sizes[i..], Phase(qty, remaining)) == Greedy(sizes, Phase(qty0, remaining0))
    {
      if remaining <= 0.0 {
        break;
      }
      ghost var before := Phase(qty, remaining);
      assert sizes[i..][1..] == sizes[i + 1..];
      assert Greedy(sizes[i..], before) == Greedy(sizes[i + 1..], Take(before, sizes[i]));
      qty, remaining := TakeStep(qty, remaining, sizes[i]);
      i := i + 1;
    }
  }

  /** The loop body for size `s`: `int(remaining // s)` more cans of it, when that is positive. */
  method TakeStep(qty0: map<real, nat>, remaining0: real, s: real) returns (qty: map<real, nat>, remaining: real)
    requires s > 0.0
    ensures Phase(qty, remaining) == Take(Phase(qty0, remaining0), s)
  {
    qty, remaining := qty0, remaining0;
    var q := (remaining / s).Floor;
    if q > 0 {
      qty := qty[s := Count(qty, s) + q];
      remaining := remaining - (q as real) * s;
    }
  }

  /** The top-up of `compute_cans`. */
  method TopUpStep(sizes: seq<real>, qty0: map<real, nat>, remaining0: real) returns (qty: map<real, nat>, remaining: real)
    requires forall i :: 0 <= i < |sizes| ==> sizes[i] > 0.0
    ensures Phase(qty, remaining) == TopUp(Phase(qty0, remaining0), sizes)
  {
    qty, remaining := qty0, remaining0;
    if remaining > Tolerance && |sizes| > 0 {
      var smallest := sizes[|sizes| - 1];
      PositiveQuotient(remaining, smallest);
      var extra := Ceil(remaining / smallest);
      qty := qty[smallest := Count(qty, smallest) + extra];
      remaining := remaining - (extra as real) * smallest;
    }
  }

  /** `sum(size * qty for size, qty in cans.items())`. */
  method SumLiters(keys: seq<real>, qty: map<real, nat>) returns (total: real)
    ensures total == Liters(keys, qty)
  {
    total := 0.0;
    for j := 0 to |keys|
      invariant total == Liters(keys[..j], qty)
    {
      assert keys[..j + 1][..j] == keys[..j];
      total := total + keys[j] * (Count(qty, keys[j]) as real);
    }
    assert keys[..|keys|] == keys;
  }

  // ----- Properties of the plan -----

  /** `q <= x/s` gives `q*s <= x`: whole cans taken never exceed what remains. */
  lemma TakenBound(q: real, x: real, s: real)
    requires s > 0.0 && q <= x / s
    ensures q * s <= x
  {
    var d := x / s;
    assert d * s == x;
    assert (d - q) * s == x - q * s;
    if q < d {
      MulPositive(d - q, s);
    }
  }

  /** `x/s <= q` gives `x <= q*s`: the top-up covers what remains. */
  lemma CoverBound(q: real, x: real, s: real)
    requires s > 0.0 && x / s <= q
    ensures x <= q * s
  {
    var d := x / s;
    assert d * s == x;
    assert (q - d) * s == q * s - x;
    if d < q {
      MulPositive(q - d, s);
    }
  }

  /** `q < x/s + 1` gives `q*s < x + s`: the top-up overshoots by less than one can. */
  lemma ExcessBound(q: real, x: real, s: real)
    requires s > 0.0 && q < x / s + 1.0
    ensures q * s < x + s
  {
    var d := x / s;
    assert d * s == x;
    MulPositive(d + 1.0 - q, s);
    assert (d + 1.0 - q) * s == d * s + 1.0 * s - q * s;
  }

  lemma MulPositive(a: real, b: real)
    requires a > 0.0 && b > 0.0
    ensures a * b > 0.0
  {
  }

  /** Adding `q` cans of a key adds `q` times its size to the litres. */
  lemma {:induction false} LitersUpdate(keys: seq<real>, qty: map<real, nat>, s: real, q: nat)
    requires Distinct(keys) && s in keys
    ensures Liters(keys, qty[s := Count(qty, s) + q]) == Liters(keys, qty) + s * (q as real)
    decreases |keys|
  {
    var init := keys[..|keys| - 1];
    var last := keys[|keys| - 1];
    var qty2 := qty[s := Count(qty, s) + q];
    if last == s {
      forall j | 0 <= j < |init| ensures init[j] != s {
        assert init[j] == keys[j];
      }
      LitersUnchanged(init, qty, qty2);
    } else {
      assert s in init;
      LitersUpdate(init, qty, s, q);
    }
  }

  /** The litres only depend on the counts of the keys. */
  lemma {:induction false} LitersUnchanged(keys: seq<real>, qty: map<real, nat>, qty2: map<real, nat>)
    requires forall k :: k in keys ==> Count(qty, k) == Count(qty2, k)
    ensures Liters(keys, qty) == Liters(keys, qty2)
    decreases |keys|
  {
    if keys != [] {
      LitersUnchanged(keys[..|keys| - 1], qty, qty2);
    }
  }

  /** No cans add up to no litres. */
  lemma {:induction false} LitersZero(keys: seq<real>, qty: map<real, nat>)
    requires forall k :: k in keys ==> Count(qty, k) == 0
    ensures Liters(keys, qty) == 0.0
    decreases |keys|
  {
    if keys != [] {
      LitersZero(keys[..|keys| - 1], qty);
    }
  }

  /**
   * The loop invariant of `compute_cans`: what remains is the volume needed
   * minus the litres taken so far.
   */
  predicate Accounts(st: Phase, keys: seq<real>, needed: real) {
    st.remaining == needed - Liters(keys, st.qty)
  }

  /** One greedy step keeps the invariant and never takes more than remains. */
  lemma TakeAccounts(st: Phase, s: real, keys: seq<real>, needed: real)
    requires s > 0.0 && s in keys && Distinct(keys)
    requires st.remaining > 0.0 && Accounts(st, keys, needed)
    ensures Accounts(Take(st, s), keys, needed) && Take(st, s).remaining >= 0.0
  {
    var q := (st.remaining / s).Floor;
    TakenBound(q as real, st.remaining, s);
    if q > 0 {
      LitersUpdate(keys, st.qty, s, q);
    }
  }

  /** The greedy loop keeps the invariant and leaves a non-negative remainder. */
  lemma {:induction false} GreedyAccounts(sizes: seq<real>, st: Phase, keys: seq<real>, needed: real)
    requires forall i :: 0 <= i < |sizes| ==> sizes[i] > 0.0 && sizes[i] in keys
    requires Distinct(keys) && st.remaining >= 0.0 && Accounts(st, keys, needed)
    ensures Accounts(Greedy(sizes, st), keys, needed) && Greedy(sizes, st).remaining >= 0.0
    decreases |sizes|
  {
    if sizes != [] && st.remaining > 0.0 {
      TakeAccounts(st, sizes[0], keys, needed);
      GreedyAccounts(sizes[1..], Take(st, sizes[0]), keys, needed);
    }
  }

  /**
   * The top-up keeps the invariant; afterwards at most the tolerance remains,
   * and less than one smallest can was bought beyond the need.
   */
  lemma TopUpAccounts(st: Phase, sizes: seq<real>, keys: seq<real>, needed: real)
    requires forall i :: 0 <= i < |sizes| ==> sizes[i] > 0.0 && sizes[i] in keys
    requires Distinct(keys) && st.remaining >= 0.0 && Accounts(st, keys, needed)
    ensures Accounts(TopUp(st, sizes), keys, needed)
    ensures sizes != [] ==> TopUp(st, sizes).remaining <= Tolerance
    ensures sizes != [] ==> TopUp(st, sizes).remaining > -sizes[|sizes| - 1]
  {
    if st.remaining > Tolerance && sizes != [] {
      var smallest := sizes[|sizes| - 1];
      PositiveQuotient(st.remaining, smallest);
      var extra := Ceil(st.remaining / smallest);
      var bought := (extra as real) * smallest;
      assert st.remaining <= bought < st.remaining + smallest by {
        CoverBound(extra as real, st.remaining, smallest);
        ExcessBound(extra as real, st.remaining, smallest);
      }
      var u := TopUp(st, sizes);
      assert u == Phase(st.qty[smallest := Count(st.qty, smallest) + extra], st.remaining - bought);
      assert Liters(keys, u.qty) == Liters(keys, st.qty) + smallest * (extra as real) by {
        LitersUpdate(keys, st.qty, smallest, extra);
      }
    }
  }

  /** Dropping the zero quantities leaves the litres as they are. */
  lemma {:induction false} NonZeroLiters(keys: seq<real>, qty: map<real, nat>)
    ensures CansLiters(NonZero(keys, qty)) == Liters(keys, qty)
    decreases |keys|
  {
    if keys != [] {
      var init := keys[..|keys| - 1];
      var k := keys[|keys| - 1];
      var c := Count(qty, k);
      var rest := NonZero(init, qty);
      assert CansLiters(rest) == Liters(init, qty) by {
        NonZeroLiters(init, qty);
      }
      assert Liters(keys, qty) == Liters(init, qty) + k * (c as real);
      if c > 0 {
        assert CansLiters(NonZero(keys, qty)) == CansLiters(rest) + k * (c as real) by {
          assert NonZero(keys, qty) == rest + [Can(k, c)];
          CansLitersAppend(rest, Can(k, c));
        }
      } else {
        assert NonZero(keys, qty) == rest;
      }
    }
  }

  /** The litres of one more can. */
  lemma CansLitersAppend(cans: seq<Can>, c: Can)
    ensures CansLiters(cans + [c]) == CansLiters(cans) + c.size * (c.count as real)
  {
    assert (cans + [c])[..|cans|] == cans;
  }

  /** The remainder after the greedy loop and the top-up, and the litres it leaves. */
  lemma FinalAccounts(litersNeeded: real, canSizes: seq<real>)
    ensures var sizes := Sizes(canSizes); var st := FinalPhase(litersNeeded, canSizes);
      && Accounts(st, Dedup(sizes), Max0(litersNeeded))
      && (sizes != [] ==> -sizes[|sizes| - 1] < st.remaining <= Tolerance)
  {
    var sizes := Sizes(canSizes);
    var keys := Dedup(sizes);
    var needed := Max0(litersNeeded);
    assert forall i :: 0 <= i < |sizes| ==> sizes[i] > 0.0 && sizes[i] in keys by {
      SizesProperties(canSizes);
      AppendNewElements([], sizes);
    }
    assert Distinct(keys) by {
      AppendNewElements([], sizes);
    }
    var st0 := Phase(Zeros(sizes), needed);
    var g := Greedy(sizes, st0);
    assert Accounts(g, keys, needed) && g.remaining >= 0.0 by {
      AppendNewElements([], sizes);
      LitersZero(keys, st0.qty);
      GreedyAccounts(sizes, st0, keys, needed);
    }
    TopUpAccounts(g, sizes, keys, needed);
    assert FinalPhase(litersNeeded, canSizes) == TopUp(g, sizes);
  }

  /**
   * The plan's litres are those of its cans, cover the need up to the
   * tolerance, and exceed it by less than any one positive can size; the
   * waste is what exceeds the need, never negative.
   */
  lemma PlanCovers(litersNeeded: real, canSizes: seq<real>)
    requires Positive(canSizes) != []
    ensures var p := Plan(litersNeeded, canSizes);
      && p.totalLiters == CansLiters(p.cans)
      && p.totalLiters >= Max0(litersNeeded) - Tolerance
      && (forall s :: s in canSizes && s > 0.0 ==> p.totalLiters < Max0(litersNeeded) + s)
      && p.waste == Max0(p.totalLiters - litersNeeded)
      && (litersNeeded >= 0.0 ==> forall s :: s in canSizes && s > 0.0 ==> p.waste < s)
  {
    var sizes := Sizes(canSizes);
    SizesProperties(canSizes);
    var keys := Dedup(sizes);
    var st := FinalPhase(litersNeeded, canSizes);
    var total := Liters(keys, st.qty);
    var smallest := sizes[|sizes| - 1];
    assert st.remaining == Max0(litersNeeded) - total && -smallest < st.remaining <= Tolerance by {
      FinalAccounts(litersNeeded, canSizes);
    }
    assert total == CansLiters(NonZero(keys, st.qty)) by {
      NonZeroLiters(keys, st.qty);
    }
    forall s | s in canSizes && s > 0.0 ensures total < Max0(litersNeeded) + s {
      var j :| 0 <= j < |sizes| && sizes[j] == s;
      assert smallest <= s;
    }
  }

  /** Without a positive size nothing is bought. */
  lemma PlanNoSizes(litersNeeded: real, canSizes: seq<real>)
    requires Positive(canSizes) == []
    ensures Plan(litersNeeded, canSizes) == CanPlan([], 0.0, Max0(-litersNeeded))
  {
    SizesProperties(canSizes);
    assert Sizes(canSizes) == [];
    assert Dedup(Sizes(canSizes)) == [];
  }

  /**
   * Every can of the plan has a positive count and a positive size from the
   * input, each size appears once, and the sizes are in descending order.
   */
  lemma PlanCans(litersNeeded: real, canSizes: seq<real>)
    ensures var cans := Plan(litersNeeded, canSizes).cans;
      && (forall i :: 0 <= i < |cans| ==> cans[i].count > 0 && cans[i].size > 0.0 && cans[i].size in canSizes)
      && Decreasing(cans)
  {
    var sizes := Sizes(canSizes);
    SizesProperties(canSizes);
    var keys := Dedup(sizes);
    AppendNewElements([], sizes);
    DedupDescending(sizes);
    var qty := FinalPhase(litersNeeded, canSizes).qty;
    NonZeroDescending(keys, qty);
    NonZeroMembers(keys, qty);
    var cans := NonZero(keys, qty);
    forall i | 0 <= i < |cans| ensures cans[i].count > 0 && cans[i].size > 0.0 && cans[i].size in canSizes {
      assert Kept(cans[i], keys, qty);
      assert cans[i].size in sizes;
      var j :| 0 <= j < |sizes| && sizes[j] == cans[i].size;
    }
  }

  /** Deduplicating a descending list keeps it descending. */
  lemma {:induction false} DedupDescending(s: seq<real>)
    requires Descending(s)
    ensures Descending(Dedup(s))
    decreases |s|
  {
    if s != [] {
      var init := s[..|s| - 1];
      var last := s[|s| - 1];
      DedupDescending(init);
      AppendNewElements([], init);
      var prev := Dedup(init);
      forall i | 0 <= i < |prev| ensures prev[i] >= last {
        assert prev[i] in init;
        var j :| 0 <= j < |init| && init[j] == prev[i];
        assert s[j] == init[j];
      }
    }
  }

  /** Keeping the non-zero keys of a strictly descending key list keeps it strictly descending. */
  lemma {:induction false} NonZeroDescending(keys: seq<real>, qty: map<real, nat>)
    requires Descending(keys) && Distinct(keys)
    ensures Decreasing(NonZero(keys, qty))
    decreases |keys|
  {
    if keys != [] {
      var init := keys[..|keys| - 1];
      var last := keys[|keys| - 1];
      assert Descending(init) && Distinct(init);
      NonZeroDescending(init, qty);
      NonZeroMembers(init, qty);
      var r := NonZero(init, qty);
      forall i | 0 <= i < |r| ensures r[i].size > last {
        assert Kept(r[i], init, qty);
        var j :| 0 <= j < |init| && init[j] == r[i].size;
        assert keys[j] == init[j];
      }
      if Count(qty, last) > 0 {
        var r2 := r + [Can(last, Count(qty, last))];
        assert NonZero(keys, qty) == r2;
        forall i, j | 0 <= i < j < |r2| ensures r2[i].size > r2[j].size {
          assert r2[i] == r[i];
          if j < |r| {
            assert r2[j] == r[j];
          } else {
            assert r2[j].size == last;
          }
        }
      } else {
        assert NonZero(keys, qty) == r;
      }
    }
  }

  // ----- estimate_paint -----

  /** The dictionary `estimate_paint` returns, before rounding. */
  datatype Estimate = Estimate(
    paintableArea: real, coats: int, coverage: real, litersNeeded: real,
    cans: seq<Can>, totalCans: nat, totalLiters: real, waste: real)

  /** `can_sizes_liters or [18.0, 3.6, 2.5, 0.9, 0.5]`: a missing or empty list means the defaults. */
  function SizesOrDefault(canSizes: Option<seq<real>>): (r: seq<real>)
    ensures canSizes.Some? && canSizes.value != [] ==> r == canSizes.value
    ensures canSizes.None? || canSizes.value == [] ==> r == DefaultSizes
  {
    match canSizes
    case None => DefaultSizes
    case Some(s) => if s == [] then DefaultSizes else s
  }

  /** The litres for an area: `area * coats / coverage`, or 0 without a positive coverage. */
  function LitersFor(area: real, coats: int, coverage: real): (l: real)
    ensures coverage > 0.0 ==> l * coverage == area * (coats as real)
    ensures coverage <= 0.0 ==> l == 0.0
  {
    if coverage > 0.0 then (area * (coats as real)) / coverage else 0.0
  }

  /** `estimate_paint`. */
  function EstimatePaint(totalArea: real, coverage: real, coats: int, excludeArea: real,
                         canSizes: Option<seq<real>>): (e: Estimate)
    ensures e.paintableArea == Max0(totalArea - excludeArea)
    ensures e.coats == coats && e.coverage == coverage
    ensures e.litersNeeded == LitersFor(e.paintableArea, coats, coverage)
    ensures var p := Plan(e.litersNeeded, SizesOrDefault(canSizes));
      e.cans == p.cans && e.totalLiters == p.totalLiters && e.waste == p.waste
    ensures e.totalCans == CansCount(e.cans)
  {
    var paintable := Max0(totalArea - excludeArea);
    var needed := LitersFor(paintable, coats, coverage);
    var p := Plan(needed, SizesOrDefault(canSizes));
    Estimate(paintable, coats, coverage, needed, p.cans, CansCount(p.cans), p.totalLiters, p.waste)
  }

  /** The default sizes are all positive. */
  lemma DefaultSizesPositive()
    ensures Positive(DefaultSizes) != []
  {
    assert 18.0 in DefaultSizes;
  }

  /**
   * With the default sizes, or any list holding a positive size, the
   * estimate buys at least the litres needed (up to the tolerance), less
   * than one 0.5 L can beyond them for the defaults, and as many cans as
   * its list counts.
   */
  lemma EstimateCovers(totalArea: real, coverage: real, coats: int, excludeArea: real,
                       canSizes: Option<seq<real>>)
    requires canSizes.None? || Positive(canSizes.value) != [] || canSizes.value == []
    ensures var e := EstimatePaint(totalArea, coverage, coats, excludeArea, canSizes);
      && e.totalLiters >= e.litersNeeded - Tolerance
      && e.totalLiters == CansLiters(e.cans)
      && (SizesOrDefault(canSizes) == DefaultSizes ==> e.totalLiters < Max0(e.litersNeeded) + 0.5)
  {
    var e := EstimatePaint(totalArea, coverage, coats, excludeArea, canSizes);
    var sizes := SizesOrDefault(canSizes);
    if sizes == DefaultSizes {
      DefaultSizesPositive();
    }
    PlanCovers(e.litersNeeded, sizes);
    if sizes == DefaultSizes {
      assert 0.5 in DefaultSizes;
    }
  }
}
