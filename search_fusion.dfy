/**
 * Fusion of the four retrieval channels in `search_products`: the per-SKU
 * candidate table filled from each channel's rows, the per-channel maxima,
 * the reweighting of the channel weights and the normalised, weighted score
 * of every candidate.
 */
module Fusion {
  import opened Seqs

  /** The four approximate retrieval channels, in the order their rows are merged. */
  datatype Channel = Vec | Ft | Trgm | Kw

  /** One real number per channel (maxima, weights, normalised scores). */
  datatype PerChannel = PerChannel(vec: real, ft: real, trgm: real, kw: real) {
    function Of(c: Channel): real {
      match c
      case Vec => vec
      case Ft => ft
      case Trgm => trgm
      case Kw => kw
    }

    function Total(): real {
      vec + ft + trgm + kw
    }

    predicate NonNegative() {
      vec >= 0.0 && ft >= 0.0 && trgm >= 0.0 && kw >= 0.0
    }

    predicate InUnit() {
      0.0 <= vec <= 1.0 && 0.0 <= ft <= 1.0 && 0.0 <= trgm <= 1.0 && 0.0 <= kw <= 1.0
    }
  }

  /**
   * One row returned by a channel: the product's SKU, name and barcode and
   * the channel's raw number (a cosine distance for the vector channel, a
   * relevance, similarity or keyword score for the others).
   */
  datatype Row = Row(sku: string, name: string, barcode: string, raw: real)

  /** The score a row records: `max(0, 1 - distance)` for the vector channel, the raw score otherwise. */
  function RowScore(ch: Channel, r: Row): (v: real)
    ensures ch == Vec ==> v >= 0.0 && v >= 1.0 - r.raw && (v == 0.0 || v == 1.0 - r.raw)
    ensures ch != Vec ==> v == r.raw
  {
    if ch == Vec then (if 1.0 - r.raw > 0.0 then 1.0 - r.raw else 0.0) else r.raw
  }

  /** The aggregated view of one SKU: the name and barcode it was introduced with and its score per channel. */
  datatype Candidate = Candidate(name: string, barcode: string, scores: map<Channel, real>)

  /** `scores.get(ch, 0.0)`. */
  function Score(c: Candidate, ch: Channel): real {
    if ch in c.scores then c.scores[ch] else 0.0
  }

  /** The `items` dictionary as a value: its keys in insertion order and the candidate of each key. */
  datatype Table = Table(keys: seq<string>, items: map<string, Candidate>)

  /**
   * The dictionary's invariant: each SKU once in insertion order, exactly the
   * keys of the map, and no candidate without a channel score.
   */
  ghost predicate WellFormed(t: Table) {
    && Distinct(t.keys)
    && (forall k :: k in t.items <==> k in t.keys)
    && (forall k :: k in t.items ==> t.items[k].scores != map[])
  }

  /** `items.setdefault(sku, {...})`: adds the SKU with the row's name and barcode and no score if it is new. */
  function SetDefault(t: Table, r: Row): (u: Table)
    ensures r.sku in u.items
  {
    if r.sku in t.items then t
    else Table(t.keys + [r.sku], t.items[r.sku := Candidate(r.name, r.barcode, map[])])
  }

  /** One iteration of `put`: `setdefault`, then record the row's score under the channel. */
  function Step(t: Table, ch: Channel, r: Row): Table {
    var d := SetDefault(t, r);
    var it := d.items[r.sku];
    d.(items := d.items[r.sku := it.(scores := it.scores[ch := RowScore(ch, r)])])
  }

  /**
   * `put(rows, ch, ...)` as a value: the table after recording every row of
   * one channel, in order. Existing keys keep their place, name and barcode.
   */
  function Absorb(t: Table, ch: Channel, rows: seq<Row>): (u: Table)
    ensures WellFormed(t) ==> WellFormed(u)
    ensures |t.keys| <= |u.keys| && u.keys[..|t.keys|] == t.keys
    ensures forall k :: k in t.items ==>
      k in u.items && u.items[k].name == t.items[k].name && u.items[k].barcode == t.items[k].barcode
    decreases |rows|
  {
    if rows == [] then t
    else
      var u := Absorb(t, ch, rows[..|rows| - 1]);
      StepWellFormed(u, ch, rows[|rows| - 1]);
      Step(u, ch, rows[|rows| - 1])
  }

  /** One step keeps the dictionary's invariant. */
  lemma StepWellFormed(t: Table, ch: Channel, r: Row)
    ensures WellFormed(t) ==> WellFormed(Step(t, ch, r))
  {
    if WellFormed(t) {
      var u := Step(t, ch, r);
      forall k | k in u.items ensures u.items[k].scores != map[] {
        if k == r.sku {
          assert ch in u.items[k].scores;
        }
      }
    }
  }

  /** The table an empty dictionary becomes after the four `put` calls, in the source's channel order. */
  function Aggregate(vec: seq<Row>, ft: seq<Row>, trgm: seq<Row>, kw: seq<Row>): (t: Table)
    ensures WellFormed(t)
  {
    Absorb(Absorb(Absorb(Absorb(Table([], map[]), Vec, vec), Ft, ft), Trgm, trgm), Kw, kw)
  }

  /** The candidate table of `search_products`: the `items` dictionary that `put` fills in place. */
  class CandidateTable {
    var keys: seq<string>
    var items: map<string, Candidate>

    function State(): Table
      reads this
    {
      Table(keys, items)
    }

    constructor ()
      ensures State() == Table([], map[])
    {
      keys := [];
      items := map[];
    }

    /** Records every row of one channel: new SKUs are appended, a later row overwrites the channel's score. */
    method Put(ch: Channel, rows: seq<Row>)
      modifies this
      ensures State() == Absorb(old(State()), ch, rows)
    {
      ghost var start := State();
      for i := 0 to |rows|
        invariant State() == Absorb(start, ch, rows[..i])
      {
        var r := rows[i];
        if r.sku !in items {
          items := items[r.sku := Candidate(r.name, r.barcode, map[])];
          keys := keys + [r.sku];
        }
        var it := items[r.sku];
        items := items[r.sku := it.(scores := it.scores[ch := RowScore(ch, r)])];
        assert rows[..i + 1][..i] == rows[..i];
      }
      assert rows[..|rows|] == rows;
    }
  }

  // ----- Properties of the aggregation -----

  /** The first row that introduces a new SKU gives the candidate its name and barcode. */
  lemma {:induction false} AbsorbIntroduces(t: Table, ch: Channel, rows: seq<Row>, i: nat)
    requires i < |rows| && rows[i].sku !in t.items
    requires forall j :: 0 <= j < i ==> rows[j].sku != rows[i].sku
    ensures rows[i].sku in Absorb(t, ch, rows).items
    ensures Absorb(t, ch, rows).items[rows[i].sku].name == rows[i].name
    ensures Absorb(t, ch, rows).items[rows[i].sku].barcode == rows[i].barcode
  {
    var init := rows[..|rows| - 1];
    if i < |rows| - 1 {
      AbsorbIntroduces(t, ch, init, i);
    } else {
      AbsorbMissing(t, ch, init, rows[i].sku);
    }
  }

  /** A SKU that no row carries and the table lacks stays absent. */
  lemma {:induction false} AbsorbMissing(t: Table, ch: Channel, rows: seq<Row>, sku: string)
    requires sku !in t.items
    requires forall j :: 0 <= j < |rows| ==> rows[j].sku != sku
    ensures sku !in Absorb(t, ch, rows).items
  {
    if rows != [] {
      AbsorbMissing(t, ch, rows[..|rows| - 1], sku);
    }
  }

  /** The last row of a channel for a SKU decides that channel's score. */
  lemma {:induction false} AbsorbLastWins(t: Table, ch: Channel, rows: seq<Row>, i: nat)
    requires i < |rows|
    requires forall j :: i < j < |rows| ==> rows[j].sku != rows[i].sku
    ensures rows[i].sku in Absorb(t, ch, rows).items
    ensures Score(Absorb(t, ch, rows).items[rows[i].sku], ch) == RowScore(ch, rows[i])
  {
    if i < |rows| - 1 {
      AbsorbLastWins(t, ch, rows[..|rows| - 1], i);
    }
  }

  /** A channel's rows leave every other channel's scores of an existing SKU as they were. */
  lemma {:induction false} AbsorbOtherChannel(t: Table, ch: Channel, rows: seq<Row>, sku: string, other: Channel)
    requires sku in t.items && other != ch
    ensures sku in Absorb(t, ch, rows).items
    ensures (other in Absorb(t, ch, rows).items[sku].scores) == (other in t.items[sku].scores)
    ensures Score(Absorb(t, ch, rows).items[sku], other) == Score(t.items[sku], other)
  {
    if rows != [] {
      AbsorbOtherChannel(t, ch, rows[..|rows| - 1], sku, other);
    }
  }

  /** No candidate of the table has a score under channel `c`. */
  predicate Lacks(t: Table, c: Channel) {
    forall k :: k in t.items ==> c !in t.items[k].scores
  }

  /** Recording rows of one channel adds no score under another channel. */
  lemma {:induction false} AbsorbLacks(t: Table, ch: Channel, rows: seq<Row>, other: Channel)
    requires Lacks(t, other) && other != ch
    ensures Lacks(Absorb(t, ch, rows), other)
    decreases |rows|
  {
    if rows != [] {
      AbsorbLacks(t, ch, rows[..|rows| - 1], other);
    }
  }

  /**
   * Recording rows keeps every score non-negative when the rows' scores are:
   * always for the vector channel, and for the others when every raw score is.
   */
  lemma {:induction false} AbsorbNonNegative(t: Table, ch: Channel, rows: seq<Row>)
    requires ScoresNonNegative(t)
    requires ch != Vec ==> forall i :: 0 <= i < |rows| ==> rows[i].raw >= 0.0
    ensures ScoresNonNegative(Absorb(t, ch, rows))
    decreases |rows|
  {
    if rows != [] {
      AbsorbNonNegative(t, ch, rows[..|rows| - 1]);
    }
  }

  /** The SKUs of a list of rows, in order. */
  function Skus(rows: seq<Row>): (s: seq<string>)
    ensures |s| == |rows| && forall i :: 0 <= i < |rows| ==> s[i] == rows[i].sku
  {
    seq(|rows|, i requires 0 <= i < |rows| => rows[i].sku)
  }

  /** The key order after one channel is the old order followed by the channel's new SKUs, first appearance first. */
  lemma {:induction false} AbsorbKeys(t: Table, ch: Channel, rows: seq<Row>)
    requires WellFormed(t)
    ensures Absorb(t, ch, rows).keys == AppendNew(t.keys, Skus(rows))
  {
    if rows != [] {
      var init := rows[..|rows| - 1];
      AbsorbKeys(t, ch, init);
      assert Skus(rows)[..|rows| - 1] == Skus(init);
      var u := Absorb(t, ch, init);
      assert (rows[|rows| - 1].sku in u.items) == (rows[|rows| - 1].sku in u.keys);
    }
  }

  /** The SKUs of all four channels, in the order the source merges them. */
  function AllSkus(vec: seq<Row>, ft: seq<Row>, trgm: seq<Row>, kw: seq<Row>): seq<string> {
    Skus(vec) + Skus(ft) + Skus(trgm) + Skus(kw)
  }

  /** The dictionary's key order is first appearance over the vector, full-text, trigram and keyword rows. */
  lemma AggregateKeys(vec: seq<Row>, ft: seq<Row>, trgm: seq<Row>, kw: seq<Row>)
    ensures Aggregate(vec, ft, trgm, kw).keys == Dedup(AllSkus(vec, ft, trgm, kw))
  {
    var t0 := Table([], map[]);
    var t1 := Absorb(t0, Vec, vec);
    var t2 := Absorb(t1, Ft, ft);
    var t3 := Absorb(t2, Trgm, trgm);
    AbsorbKeys(t0, Vec, vec);
    AbsorbKeys(t1, Ft, ft);
    AbsorbKeys(t2, Trgm, trgm);
    AbsorbKeys(t3, Kw, kw);
    AppendNewConcat([], Skus(vec), Skus(ft));
    AppendNewConcat([], Skus(vec) + Skus(ft), Skus(trgm));
    AppendNewConcat([], Skus(vec) + Skus(ft) + Skus(trgm), Skus(kw));
  }

  // ----- Channel maxima -----

  /** `items[k]["scores"].get(ch, 0.0)`, for a key of the table. */
  function ItemScore(t: Table, k: string, ch: Channel): real {
    if k in t.items then Score(t.items[k], ch) else 0.0
  }

  /** The values the source's `max` ranges over: one per candidate, in key order. */
  function Column(t: Table, ch: Channel): (v: seq<real>)
    ensures |v| == |t.keys| && forall i :: 0 <= i < |t.keys| ==> v[i] == ItemScore(t, t.keys[i], ch)
  {
    seq(|t.keys|, i requires 0 <= i < |t.keys| => ItemScore(t, t.keys[i], ch))
  }

  /** `max(values, default=0.0)`: an upper bound of the values that is one of them, or 0 for none. */
  function MaxOr0(v: seq<real>): (m: real)
    ensures forall i :: 0 <= i < |v| ==> v[i] <= m
    ensures v == [] ==> m == 0.0
    ensures v != [] ==> m in v
  {
    if |v| == 0 then 0.0
    else if |v| == 1 then v[0]
    else
      var m := MaxOr0(v[..|v| - 1]);
      if v[|v| - 1] > m then v[|v| - 1] else m
  }

  /** The four channel maxima of a table. */
  function Maxima(t: Table): PerChannel {
    PerChannel(MaxOr0(Column(t, Vec)), MaxOr0(Column(t, Ft)), MaxOr0(Column(t, Trgm)), MaxOr0(Column(t, Kw)))
  }

  /** A channel no candidate has a score for has maximum 0. */
  lemma LacksMaximum(t: Table, c: Channel)
    requires Lacks(t, c)
    ensures Maxima(t).Of(c) == 0.0
  {
    var col := Column(t, c);
    assert forall i :: 0 <= i < |col| ==> col[i] == 0.0;
    assert MaxOr0(col) == Maxima(t).Of(c) by {
      match c
      case Vec => case Ft => case Trgm => case Kw =>
    }
  }

  /** The generator loop of one `max(...)`: the channel's largest score over the candidates, 0 when there are none. */
  method ChannelMax(t: Table, ch: Channel) returns (m: real)
    ensures m == MaxOr0(Column(t, ch))
  {
    var col := Column(t, ch);
    m := 0.0;
    for i := 0 to |t.keys|
      invariant m == MaxOr0(col[..i])
    {
      var v := ItemScore(t, t.keys[i], ch);
      assert col[..i + 1][..i] == col[..i];
      if i == 0 || v > m {
        m := v;
      }
    }
    assert col[..|t.keys|] == col;
  }

  // ----- Reweighting -----

  /** The weights of the channels with a positive maximum; the others are zeroed. */
  function Kept(base: PerChannel, maxima: PerChannel): (w: PerChannel)
    ensures forall c :: w.Of(c) == if maxima.Of(c) > 0.0 then base.Of(c) else 0.0
  {
    PerChannel(
      if maxima.vec > 0.0 then base.vec else 0.0,
      if maxima.ft > 0.0 then base.ft else 0.0,
      if maxima.trgm > 0.0 then base.trgm else 0.0,
      if maxima.kw > 0.0 then base.kw else 0.0)
  }

  /**
   * The rebalanced weights: an empty channel (maximum <= 0) weighs exactly
   * 0; the kept weights are divided by their total when it is positive, so
   * that non-negative weights then sum to 1; otherwise they stay as they are.
   */
  function Reweighted(base: PerChannel, maxima: PerChannel): (w: PerChannel)
    ensures forall c :: maxima.Of(c) <= 0.0 ==> w.Of(c) == 0.0
    ensures var total := Kept(base, maxima).Total();
      forall c :: maxima.Of(c) > 0.0 ==> w.Of(c) == if total > 0.0 then base.Of(c) / total else base.Of(c)
    ensures base.NonNegative() ==> w.NonNegative()
    ensures base.NonNegative() && Kept(base, maxima).Total() > 0.0 ==> w.Total() == 1.0
    ensures base.NonNegative() && !(Kept(base, maxima).Total() > 0.0) ==> w == PerChannel(0.0, 0.0, 0.0, 0.0)
  {
    var k := Kept(base, maxima);
    var total := k.Total();
    if total > 0.0 then
      var w := PerChannel(k.vec / total, k.ft / total, k.trgm / total, k.kw / total);
      assert w.Total() * total == k.vec + k.ft + k.trgm + k.kw by {
        assert w.Total() * total == (k.vec / total) * total + (k.ft / total) * total
          + (k.trgm / total) * total + (k.kw / total) * total;
      }
      UnitFactor(w.Total(), total);
      w
    else k
  }

  /** When no channel brought a positive score every weight is 0, whatever the base weights. */
  lemma NoSignalWeights(base: PerChannel, maxima: PerChannel)
    requires maxima.vec <= 0.0 && maxima.ft <= 0.0 && maxima.trgm <= 0.0 && maxima.kw <= 0.0
    ensures Reweighted(base, maxima) == PerChannel(0.0, 0.0, 0.0, 0.0)
  {
    var k := Kept(base, maxima);
    assert k == PerChannel(0.0, 0.0, 0.0, 0.0);
    assert k.Total() == 0.0;
  }

  /** `x * t == t` with `t > 0` forces `x == 1`. */
  lemma UnitFactor(x: real, t: real)
    requires t > 0.0 && x * t == t
    ensures x == 1.0
  {
    assert (x - 1.0) * t == 0.0;
  }

  /** The source's if-chain over `w_vec .. w_kw` and `total`. */
  method Rebalance(base: PerChannel, maxima: PerChannel) returns (w: PerChannel)
    ensures w == Reweighted(base, maxima)
  {
    var wVec, wFt, wTr, wKw := base.vec, base.ft, base.trgm, base.kw;
    var total := 0.0;
    if maxima.vec > 0.0 { total := total + wVec; } else { wVec := 0.0; }
    if maxima.ft > 0.0 { total := total + wFt; } else { wFt := 0.0; }
    if maxima.trgm > 0.0 { total := total + wTr; } else { wTr := 0.0; }
    if maxima.kw > 0.0 { total := total + wKw; } else { wKw := 0.0; }
    if total > 0.0 {
      wVec, wFt, wTr, wKw := wVec / total, wFt / total, wTr / total, wKw / total;
    }
    w := PerChannel(wVec, wFt, wTr, wKw);
  }

  // ----- Normalisation and fused score -----

  /** One entry of the ranked list: the candidate, its fused score and its normalised channel scores. */
  datatype Entry = Entry(sku: string, name: string, barcode: string, score: real, norm: PerChannel)

  /** `raw / max` when the channel's maximum is positive, else 0. */
  function Normalized(raw: real, max: real): (n: real)
    ensures max <= 0.0 ==> n == 0.0
    ensures 0.0 <= raw <= max ==> 0.0 <= n <= 1.0
  {
    if max > 0.0 then raw / max else 0.0
  }

  /** The weighted sum of the normalised scores. */
  function Fused(w: PerChannel, n: PerChannel): real {
    w.vec * n.vec + w.ft * n.ft + w.trgm * n.trgm + w.kw * n.kw
  }

  /** The result entry the source builds for one candidate. */
  function EntryOf(sku: string, c: Candidate, maxima: PerChannel, w: PerChannel): Entry {
    var n := Norms(c, maxima);
    Entry(sku, c.name, c.barcode, Fused(w, n), n)
  }

  /** The candidate's four scores, each normalised by its channel maximum. */
  function Norms(c: Candidate, maxima: PerChannel): PerChannel {
    PerChannel(
      Normalized(Score(c, Vec), maxima.vec), Normalized(Score(c, Ft), maxima.ft),
      Normalized(Score(c, Trgm), maxima.trgm), Normalized(Score(c, Kw), maxima.kw))
  }

  /** The entries of all candidates, in the dictionary's key order. */
  function Entries(t: Table, maxima: PerChannel, w: PerChannel): (r: seq<Entry>)
    requires WellFormed(t)
    ensures |r| == |t.keys|
  {
    seq(|t.keys|, i requires 0 <= i < |t.keys| => EntryOf(t.keys[i], t.items[t.keys[i]], maxima, w))
  }

  /** The loop `for sku, it in items.items(): results.append(...)`. */
  method BuildEntries(t: Table, maxima: PerChannel, w: PerChannel) returns (results: seq<Entry>)
    requires WellFormed(t)
    ensures results == Entries(t, maxima, w)
  {
    results := [];
    for i := 0 to |t.keys|
      invariant results == Entries(t, maxima, w)[..i]
    {
      var sku := t.keys[i];
      results := results + [EntryOf(sku, t.items[sku], maxima, w)];
    }
  }

  /** Non-negative weights summing to at most 1 keep a sum of scores in [0, 1] inside [0, 1]. */
  lemma FusedInUnit(w: PerChannel, n: PerChannel)
    requires w.NonNegative() && w.Total() <= 1.0 && n.InUnit()
    ensures 0.0 <= Fused(w, n) <= 1.0
  {
    var a := ScaledDown(w.vec, n.vec);
    var b := ScaledDown(w.ft, n.ft);
    var c := ScaledDown(w.trgm, n.trgm);
    var d := ScaledDown(w.kw, n.kw);
    assert Fused(w, n) == a + b + c + d;
  }

  /** A non-negative weight times a number in [0, 1] lies between 0 and the weight. */
  lemma ScaledDown(a: real, x: real) returns (p: real)
    requires a >= 0.0 && 0.0 <= x <= 1.0
    ensures p == a * x && 0.0 <= p <= a
  {
    p := a * x;
    assert a * x + a * (1.0 - x) == a;
    assert a * (1.0 - x) >= 0.0;
  }

  /** All recorded scores are non-negative. */
  predicate ScoresNonNegative(t: Table) {
    forall k, c :: k in t.items && c in t.items[k].scores ==> t.items[k].scores[c] >= 0.0
  }

  /** A recorded score is at most its channel's maximum, so its normalised value lies in [0, 1]. */
  lemma NormalizedEntryInUnit(t: Table, i: nat, c: Channel)
    requires WellFormed(t) && ScoresNonNegative(t) && i < |t.keys|
    ensures 0.0 <= Normalized(Score(t.items[t.keys[i]], c), Maxima(t).Of(c)) <= 1.0
  {
    var k := t.keys[i];
    assert Column(t, c)[i] == Score(t.items[k], c);
    assert MaxOr0(Column(t, c)) == Maxima(t).Of(c) by {
      match c
      case Vec => case Ft => case Trgm => case Kw =>
    }
  }

  /** Under weights that are non-negative and sum to at most 1, the entry of candidate `i` has normalised scores and a fused score in [0, 1]. */
  lemma EntryInUnit(t: Table, w: PerChannel, i: nat)
    requires WellFormed(t) && ScoresNonNegative(t) && w.NonNegative() && w.Total() <= 1.0 && i < |t.keys|
    ensures var e := EntryOf(t.keys[i], t.items[t.keys[i]], Maxima(t), w);
      0.0 <= e.score <= 1.0 && e.norm.InUnit()
  {
    NormsInUnit(t, i);
    FusedInUnit(w, Norms(t.items[t.keys[i]], Maxima(t)));
  }

  /** Non-negative weights stay non-negative when re-weighted, and sum to at most 1. */
  lemma ReweightedBounded(base: PerChannel, maxima: PerChannel)
    requires base.NonNegative()
    ensures Reweighted(base, maxima).NonNegative() && Reweighted(base, maxima).Total() <= 1.0
  {
  }

  /** Candidate `i`'s normalised scores all lie in [0, 1]. */
  lemma NormsInUnit(t: Table, i: nat)
    requires WellFormed(t) && ScoresNonNegative(t) && i < |t.keys|
    ensures Norms(t.items[t.keys[i]], Maxima(t)).InUnit()
  {
    NormalizedEntryInUnit(t, i, Vec);
    NormalizedEntryInUnit(t, i, Ft);
    NormalizedEntryInUnit(t, i, Trgm);
    NormalizedEntryInUnit(t, i, Kw);
  }

  /**
   * With non-negative scores, and weights that are non-negative and sum to at
   * most 1, every normalised channel score and every fused score of the entry
   * list lies in [0, 1].
   */
  lemma EntriesInUnit(t: Table, w: PerChannel)
    requires WellFormed(t) && ScoresNonNegative(t) && w.NonNegative() && w.Total() <= 1.0
    ensures var es := Entries(t, Maxima(t), w);
      forall i :: 0 <= i < |es| ==> 0.0 <= es[i].score <= 1.0 && es[i].norm.InUnit()
  {
    var es := Entries(t, Maxima(t), w);
    forall i | 0 <= i < |es|
      ensures 0.0 <= es[i].score <= 1.0 && es[i].norm.InUnit()
    {
      EntryInUnit(t, w, i);
    }
  }
}
