/**
 * The `search_products` facade: the deterministic short-circuit on a single
 * code match, the embedding dimension check, and the hybrid fusion of the
 * four channels' rows into a ranked, gated, truncated result.
 *
 * The database and embedding calls are parameters: the code lookup's rows,
 * the query embedding and the four channels' rows arrive already fetched.
 */
module SearchProducts {
  import opened Wrappers
  import opened Seqs
  import opened PyText
  import opened Fusion
  import opened Ranking

  /** `EMB_DIM` when the environment does not set it. */
  const DefaultEmbDim: int := 1536

  /** `embed_query`'s check: an embedding of the wrong length is an error naming both lengths. */
  function CheckEmbedding(v: seq<real>, dim: int): (r: Result<seq<real>>)
    ensures r.Ok? <==> |v| == dim
    ensures r.Ok? ==> r.value == v
    ensures r.Err? ==> r.error == "Embedding dim " + IntToString(|v|) + " != " + IntToString(dim)
  {
    if |v| != dim then Err("Embedding dim " + IntToString(|v|) + " != " + IntToString(dim))
    else Ok(v)
  }

  /** The keyword arguments of `search_products`. */
  datatype SearchParams = SearchParams(
    k: int, kVec: int, kFt: int, kTrgm: int, kKw: int,
    alpha: real, beta: real, gamma: real, delta: real,
    requireKw: bool)
  {
    /** The base channel weights, in channel order. */
    function Weights(): PerChannel {
      PerChannel(alpha, beta, gamma, delta)
    }
  }

  /** The defaults of `search_products`. */
  const DefaultParams := SearchParams(8, 50, 30, 15, 50, 0.5, 0.3, 0.1, 0.1, true)

  /** One row of the code lookup `find_by_code`. */
  datatype CodeRow = CodeRow(sku: string, barcode: string, name: string, reason: string)

  /** A result entry of the deterministic branch. */
  datatype CodeHit = CodeHit(sku: string, barcode: string, name: string, reason: string, score: real)

  /** The four channels' rows, as fetched. A failed trigram or keyword query is an empty list. */
  datatype ChannelRows = ChannelRows(vec: seq<Row>, ft: seq<Row>, trgm: seq<Row>, kw: seq<Row>)
  {
    function Of(c: Channel): seq<Row> {
      match c
      case Vec => vec
      case Ft => ft
      case Trgm => trgm
      case Kw => kw
    }

    /** Every row, in the order `put` records them. */
    function All(): seq<Row> {
      vec + (ft + (trgm + kw))
    }
  }

  /** The dictionary `search_products` returns, by branch. */
  datatype SearchResult =
    | CodeResult(tag: string, confidence: real, hits: seq<CodeHit>)
    | RankedResult(tag: string, confidence: real, weights: PerChannel, results: seq<Entry>)

  /** The deterministic answer for a single code match. */
  function CodeOutcome(r: CodeRow): (o: SearchResult)
    ensures o.CodeResult? && o.tag == "deterministic" && o.confidence == 1.0
    ensures |o.hits| == 1 && o.hits[0].score == 1.0
    ensures o.hits[0].sku == r.sku && o.hits[0].barcode == r.barcode
    ensures o.hits[0].name == r.name && o.hits[0].reason == r.reason
  {
    CodeResult("deterministic", 1.0, [CodeHit(r.sku, r.barcode, r.name, r.reason, 1.0)])
  }

  /** The candidate table of the hybrid branch. */
  function TableOf(rows: ChannelRows): Table {
    Aggregate(rows.vec, rows.ft, rows.trgm, rows.kw)
  }

  /** The reweighted channel weights of the hybrid branch. */
  function WeightsOf(p: SearchParams, rows: ChannelRows): PerChannel {
    Reweighted(p.Weights(), Maxima(TableOf(rows)))
  }

  /** The entries in dictionary order, before sorting. */
  function EntriesOf(p: SearchParams, rows: ChannelRows): seq<Entry> {
    var t := TableOf(rows);
    Entries(t, Maxima(t), WeightsOf(p, rows))
  }

  /**
   * A ranked answer: the confidence is the best score after the stable sort
   * and the keyword gate, and the results are that list cut at `k`.
   */
  function RankedOutcome(tag: string, es: seq<Entry>, w: PerChannel, requireKw: bool, k: int): SearchResult {
    var gated := Gate(SortByScore(es), requireKw);
    RankedResult(tag, if gated == [] then 0.0 else gated[0].score, w, Ranked(es, requireKw, k))
  }

  /**
   * The hybrid answer: the method tag tells whether the code lookup had any
   * rows, and the fused entries are ranked with the rebalanced weights.
   */
  function HybridOutcome(detCount: nat, p: SearchParams, rows: ChannelRows): SearchResult {
    RankedOutcome(if detCount == 0 then "hybrid" else "hybrid_with_deterministic_candidates",
                  EntriesOf(p, rows), WeightsOf(p, rows), p.requireKw, p.k)
  }

  /**
   * `search_products`: a single code match answers deterministically and
   * consults nothing else; otherwise the embedding must have the configured
   * dimension, and the hybrid fusion runs over the channels' rows.
   */
  method Search(p: SearchParams, det: seq<CodeRow>, embedding: seq<real>, embDim: int, rows: ChannelRows)
    returns (r: Result<SearchResult>)
    ensures |det| == 1 ==> r == Ok(CodeOutcome(det[0]))
    ensures |det| != 1 ==> (r.Ok? <==> |embedding| == embDim)
    ensures |det| != 1 && r.Err? ==> r == Err(CheckEmbedding(embedding, embDim).error)
    ensures |det| != 1 && r.Ok? ==> r.value == HybridOutcome(|det|, p, rows)
  {
    if |det| == 1 {
      return Ok(CodeOutcome(det[0]));
    }
    var checked := CheckEmbedding(embedding, embDim);
    if checked.Err? {
      return Err(checked.error);
    }
    var o := HybridSearch(|det|, p, rows);
    return Ok(o);
  }

  /** The four channel queries' rows merged into the candidate table, in channel order. */
  method Collect(rows: ChannelRows) returns (t: Table)
    ensures t == TableOf(rows)
  {
    var items := new CandidateTable();
    items.Put(Vec, rows.vec);
    items.Put(Ft, rows.ft);
    items.Put(Trgm, rows.trgm);
    items.Put(Kw, rows.kw);
    t := items.State();
  }

  /** The hybrid branch: merge, per-channel maxima, rebalancing, fused entries, then ranking. */
  method HybridSearch(detCount: nat, p: SearchParams, rows: ChannelRows) returns (o: SearchResult)
    ensures o == HybridOutcome(detCount, p, rows)
  {
    var t := Collect(rows);
    var maxVec := ChannelMax(t, Vec);
    var maxFt := ChannelMax(t, Ft);
    var maxTr := ChannelMax(t, Trgm);
    var maxKw := ChannelMax(t, Kw);
    var maxima := PerChannel(maxVec, maxFt, maxTr, maxKw);
    assert maxima == Maxima(t);
    var w := Rebalance(p.Weights(), maxima);
    var results := BuildEntries(t, maxima, w);
    var tag := if detCount == 0 then "hybrid" else "hybrid_with_deterministic_candidates";
    o := Rank(tag, results, w, p.requireKw, p.k);
  }

  /** Stable sort by score, keyword gate, confidence from the gated head, then `[:k]`. */
  method Rank(tag: string, results: seq<Entry>, w: PerChannel, requireKw: bool, k: int) returns (o: SearchResult)
    ensures o == RankedOutcome(tag, results, w, requireKw, k)
  {
    var sorted := SortByScore(results);
    var gated := KeywordGate(sorted, requireKw);
    var confidence := if gated != [] then gated[0].score else 0.0;
    o := RankedResult(tag, confidence, w, PyPrefix(gated, k));
  }

  // ----- Properties of the hybrid answer -----

  /**
   * The results are in descending score order, at most `k` of them and at
   * most one per candidate; the confidence bounds every result's score and
   * is 0 when there is no candidate.
   */
  lemma HybridSorted(detCount: nat, p: SearchParams, rows: ChannelRows)
    ensures var o := HybridOutcome(detCount, p, rows);
      && SortedDesc(o.results)
      && |o.results| <= |TableOf(rows).keys|
      && (p.k >= 0 ==> |o.results| <= p.k)
      && UniqueSkus(o.results)
      && (forall i :: 0 <= i < |o.results| ==> o.results[i].score <= o.confidence)
      && (|TableOf(rows).keys| == 0 ==> o.confidence == 0.0)
  {
    RankedSorted(EntriesOf(p, rows), p.requireKw, p.k);
    EntriesUnique(p, rows);
    RankedUnique(EntriesOf(p, rows), p.requireKw, p.k);
  }

  /** The entries carry the dictionary's keys, so no two share a SKU. */
  lemma EntriesUnique(p: SearchParams, rows: ChannelRows)
    ensures UniqueSkus(EntriesOf(p, rows))
  {
    HybridCandidates(p, rows);
  }

  /** The method tag is "hybrid" exactly when the code lookup returned no row. */
  lemma HybridTag(detCount: nat, p: SearchParams, rows: ChannelRows)
    ensures HybridOutcome(detCount, p, rows).tag == "hybrid" <==> detCount == 0
    ensures detCount != 0 ==> HybridOutcome(detCount, p, rows).tag == "hybrid_with_deterministic_candidates"
  {
  }

  /**
   * The confidence is the best score among the entries the gate keeps (all
   * entries, or only the keyword-matched ones when the gate fires), and 0
   * when there is no entry; it does not depend on `k`.
   */
  lemma RankedConfidence(tag: string, es: seq<Entry>, w: PerChannel, requireKw: bool, k: int)
    ensures var o := RankedOutcome(tag, es, w, requireKw, k);
      var fires := requireKw && exists i :: 0 <= i < |es| && es[i].norm.kw > 0.0;
      && (es == [] ==> o.confidence == 0.0)
      && (es != [] ==> exists i :: 0 <= i < |es| && es[i].score == o.confidence && (fires ==> es[i].norm.kw > 0.0))
      && (forall i :: 0 <= i < |es| && (fires ==> es[i].norm.kw > 0.0) ==> es[i].score <= o.confidence)
      && (forall k' :: RankedOutcome(tag, es, w, requireKw, k').confidence == o.confidence)
  {
    var g := Gate(SortByScore(es), requireKw);
    RankedSorted(es, requireKw, k);
    GatedMembers(es, requireKw);
    GatedHead(es, requireKw);
    forall i | 0 <= i < |es| && (requireKw && (exists j :: 0 <= j < |es| && es[j].norm.kw > 0.0) ==> es[i].norm.kw > 0.0)
      ensures es[i].score <= RankedOutcome(tag, es, w, requireKw, k).confidence
    {
      assert es[i] in es;
    }
    if es != [] {
      var n :| 0 <= n < |es| && es[n] == g[0];
    }
  }

  /**
   * With the gate on and some candidate matched by keyword, every result has
   * a positive keyword score, and the results are the keyword-matched entries
   * in sorted order.
   */
  lemma HybridGate(detCount: nat, p: SearchParams, rows: ChannelRows)
    requires p.requireKw
    requires exists i :: 0 <= i < |EntriesOf(p, rows)| && EntriesOf(p, rows)[i].norm.kw > 0.0
    ensures var o := HybridOutcome(detCount, p, rows);
      && (forall i :: 0 <= i < |o.results| ==> o.results[i].norm.kw > 0.0)
      && o.results == PyPrefix(WithKeyword(SortByScore(EntriesOf(p, rows))), p.k)
    ensures forall e :: e in WithKeyword(SortByScore(EntriesOf(p, rows))) <==> e in EntriesOf(p, rows) && e.norm.kw > 0.0
  {
    RankedGate(EntriesOf(p, rows), p.k);
  }

  /** Every channel's rows contribute non-negative scores. */
  predicate RawNonNegative(rows: ChannelRows) {
    && (forall i :: 0 <= i < |rows.ft| ==> rows.ft[i].raw >= 0.0)
    && (forall i :: 0 <= i < |rows.trgm| ==> rows.trgm[i].raw >= 0.0)
    && (forall i :: 0 <= i < |rows.kw| ==> rows.kw[i].raw >= 0.0)
  }

  /** With non-negative raw scores, the aggregated table has only non-negative scores. */
  lemma TableNonNegative(rows: ChannelRows)
    requires RawNonNegative(rows)
    ensures ScoresNonNegative(TableOf(rows))
  {
    var t0 := Table([], map[]);
    AbsorbNonNegative(t0, Vec, rows.vec);
    var t1 := Absorb(t0, Vec, rows.vec);
    AbsorbNonNegative(t1, Ft, rows.ft);
    var t2 := Absorb(t1, Ft, rows.ft);
    AbsorbNonNegative(t2, Trgm, rows.trgm);
    var t3 := Absorb(t2, Trgm, rows.trgm);
    AbsorbNonNegative(t3, Kw, rows.kw);
  }

  /**
   * With non-negative raw scores and base weights, the confidence and every
   * result's fused and normalised channel scores lie in [0, 1].
   */
  lemma HybridInUnit(detCount: nat, p: SearchParams, rows: ChannelRows)
    requires RawNonNegative(rows) && p.Weights().NonNegative()
    ensures var o := HybridOutcome(detCount, p, rows);
      && 0.0 <= o.confidence <= 1.0
      && (forall i :: 0 <= i < |o.results| ==> UnitEntry(o.results[i]))
  {
    EntriesOfInUnit(p, rows);
    RankedInUnit(if detCount == 0 then "hybrid" else "hybrid_with_deterministic_candidates",
                 EntriesOf(p, rows), WeightsOf(p, rows), p.requireKw, p.k);
  }

  /** With non-negative raw scores and base weights, every entry lies in [0, 1]. */
  lemma EntriesOfInUnit(p: SearchParams, rows: ChannelRows)
    requires RawNonNegative(rows) && p.Weights().NonNegative()
    ensures forall i :: 0 <= i < |EntriesOf(p, rows)| ==> UnitEntry(EntriesOf(p, rows)[i])
  {
    TableNonNegative(rows);
    ReweightedBounded(p.Weights(), Maxima(TableOf(rows)));
    EntriesInUnit(TableOf(rows), WeightsOf(p, rows));
  }

  /**
   * With non-negative base weights the rebalanced weights are non-negative,
   * and they sum to 1 whenever some weighted channel brought a positive score.
   */
  lemma HybridWeights(detCount: nat, p: SearchParams, rows: ChannelRows)
    requires p.Weights().NonNegative()
    ensures HybridOutcome(detCount, p, rows).weights.NonNegative()
    ensures Kept(p.Weights(), Maxima(TableOf(rows))).Total() > 0.0 ==> HybridOutcome(detCount, p, rows).weights.Total() == 1.0
  {
    var m := Maxima(TableOf(rows));
    assert HybridOutcome(detCount, p, rows).weights == Reweighted(p.Weights(), m);
  }

  /** An entry whose fused and normalised channel scores all lie in [0, 1]. */
  predicate UnitEntry(e: Entry) {
    0.0 <= e.score <= 1.0 && e.norm.InUnit()
  }

  /** Ranking keeps only input entries, so entries in [0, 1] give a ranked answer in [0, 1]. */
  lemma RankedInUnit(tag: string, es: seq<Entry>, w: PerChannel, requireKw: bool, k: int)
    requires forall i :: 0 <= i < |es| ==> UnitEntry(es[i])
    ensures var o := RankedOutcome(tag, es, w, requireKw, k);
      && 0.0 <= o.confidence <= 1.0
      && (forall i :: 0 <= i < |o.results| ==> UnitEntry(o.results[i]))
  {
    RankedMembers(es, requireKw, k);
    var res := Ranked(es, requireKw, k);
    forall n | 0 <= n < |res| ensures UnitEntry(res[n]) {
      assert res[n] in res;
    }
  }

  /**
   * A channel that brought no rows gets weight 0 and contributes 0 to every
   * entry's normalised scores.
   */
  lemma EmptyChannelIgnored(p: SearchParams, rows: ChannelRows, c: Channel)
    requires rows.Of(c) == []
    ensures WeightsOf(p, rows).Of(c) == 0.0
    ensures forall i :: 0 <= i < |EntriesOf(p, rows)| ==> EntriesOf(p, rows)[i].norm.Of(c) == 0.0
  {
    var t := TableOf(rows);
    TableLacks(rows, c);
    LacksMaximum(t, c);
    var es := EntriesOf(p, rows);
    forall i | 0 <= i < |es| ensures es[i].norm.Of(c) == 0.0 {
      assert Maxima(t).Of(c) == 0.0;
    }
  }

  /** A channel that brought no rows has no score in the merged table. */
  lemma TableLacks(rows: ChannelRows, c: Channel)
    requires rows.Of(c) == []
    ensures Lacks(TableOf(rows), c)
  {
    var t0 := Table([], map[]);
    assert Lacks(t0, c);
    var t1 := Absorb(t0, Vec, rows.vec);
    if c != Vec { AbsorbLacks(t0, Vec, rows.vec, c); }
    var t2 := Absorb(t1, Ft, rows.ft);
    if c != Ft { AbsorbLacks(t1, Ft, rows.ft, c); }
    var t3 := Absorb(t2, Trgm, rows.trgm);
    if c != Trgm { AbsorbLacks(t2, Trgm, rows.trgm, c); }
    if c != Kw { AbsorbLacks(t3, Kw, rows.kw, c); }
  }

  /** With no rows in any channel, the answer has no results, confidence 0 and all weights 0. */
  lemma HybridEmpty(detCount: nat, p: SearchParams, rows: ChannelRows)
    requires rows.All() == []
    ensures var o := HybridOutcome(detCount, p, rows);
      && o.results == [] && o.confidence == 0.0 && o.weights == PerChannel(0.0, 0.0, 0.0, 0.0)
  {
    EmptyTable(rows);
    HybridSorted(detCount, p, rows);
    NoCandidateWeights(p.Weights(), TableOf(rows));
  }

  /** No rows make an empty table. */
  lemma EmptyTable(rows: ChannelRows)
    requires rows.All() == []
    ensures TableOf(rows).keys == []
  {
  }

  /** Without candidates every maximum is 0, so every weight is 0. */
  lemma NoCandidateWeights(base: PerChannel, t: Table)
    requires t.keys == []
    ensures Reweighted(base, Maxima(t)) == PerChannel(0.0, 0.0, 0.0, 0.0)
  {
    assert Column(t, Vec) == [] && Column(t, Ft) == [] && Column(t, Trgm) == [] && Column(t, Kw) == [];
    NoSignalWeights(base, Maxima(t));
  }

  /**
   * The sort breaks no ties: entries of equal score stay in dictionary order,
   * which is the order in which their SKUs first appear over the vector,
   * full-text, trigram and keyword rows.
   */
  lemma HybridTieOrder(p: SearchParams, rows: ChannelRows, v: real)
    ensures WithScore(SortByScore(EntriesOf(p, rows)), v) == WithScore(EntriesOf(p, rows), v)
    ensures TableOf(rows).keys == Dedup(AllSkus(rows.vec, rows.ft, rows.trgm, rows.kw))
    ensures forall i :: 0 <= i < |EntriesOf(p, rows)| ==> EntriesOf(p, rows)[i].sku == TableOf(rows).keys[i]
  {
    SortByScoreStable(EntriesOf(p, rows), v);
    AggregateKeys(rows.vec, rows.ft, rows.trgm, rows.kw);
  }

  /**
   * The table holds exactly one candidate per distinct SKU over the four
   * channels, and the entry list has one entry per candidate, in key order.
   */
  lemma HybridCandidates(p: SearchParams, rows: ChannelRows)
    ensures Distinct(TableOf(rows).keys)
    ensures forall sku :: sku in TableOf(rows).items <==> sku in AllSkus(rows.vec, rows.ft, rows.trgm, rows.kw)
    ensures |EntriesOf(p, rows)| == |TableOf(rows).keys|
    ensures forall i :: 0 <= i < |EntriesOf(p, rows)| ==> EntriesOf(p, rows)[i].sku == TableOf(rows).keys[i]
  {
    AggregateKeys(rows.vec, rows.ft, rows.trgm, rows.kw);
    AppendNewElements([], AllSkus(rows.vec, rows.ft, rows.trgm, rows.kw));
  }

  /**
   * `setdefault` keeps the first row: the candidate of a SKU has the name and
   * barcode of the first row, over all channels in merge order, that carries it.
   */
  lemma HybridFirstRow(rows: ChannelRows, i: nat)
    requires i < |rows.All()|
    requires forall j :: 0 <= j < i ==> rows.All()[j].sku != rows.All()[i].sku
    ensures Introduced(TableOf(rows), rows.All()[i])
  {
    var a, b, c, d := rows.vec, rows.ft, rows.trgm, rows.kw;
    var t0 := Table([], map[]);
    var t1 := Absorb(t0, Vec, a);
    var t2 := Absorb(t1, Ft, b);
    var t3 := Absorb(t2, Trgm, c);
    var r := rows.All()[i];
    if i < |a| {
      FirstInSegment(t0, Vec, a, b + (c + d), i);
      StaysIntroduced(t1, Ft, b, r);
      StaysIntroduced(t2, Trgm, c, r);
      StaysIntroduced(t3, Kw, d, r);
    } else {
      PastSegment(t0, Vec, a, b + (c + d), i);
      FirstRowFrom(t1, b, c, d, i - |a|);
    }
  }

  /** The candidate of a row's SKU carries that row's name and barcode. */
  predicate Introduced(t: Table, r: Row) {
    r.sku in t.items && t.items[r.sku].name == r.name && t.items[r.sku].barcode == r.barcode
  }

  /** Later rows never change a candidate's name or barcode. */
  lemma StaysIntroduced(t: Table, ch: Channel, rows: seq<Row>, r: Row)
    requires Introduced(t, r)
    ensures Introduced(Absorb(t, ch, rows), r)
  {
  }

  /** The full-text, trigram and keyword stages of `HybridFirstRow`. */
  lemma FirstRowFrom(t1: Table, b: seq<Row>, c: seq<Row>, d: seq<Row>, i: nat)
    requires i < |b + (c + d)| && (b + (c + d))[i].sku !in t1.items
    requires forall j :: 0 <= j < i ==> (b + (c + d))[j].sku != (b + (c + d))[i].sku
    ensures Introduced(Absorb(Absorb(Absorb(t1, Ft, b), Trgm, c), Kw, d), (b + (c + d))[i])
  {
    var t2 := Absorb(t1, Ft, b);
    var t3 := Absorb(t2, Trgm, c);
    var r := (b + (c + d))[i];
    if i < |b| {
      FirstInSegment(t1, Ft, b, c + d, i);
      StaysIntroduced(t2, Trgm, c, r);
      StaysIntroduced(t3, Kw, d, r);
    } else {
      PastSegment(t1, Ft, b, c + d, i);
      FirstRowLast(t2, c, d, i - |b|);
    }
  }

  /** The trigram and keyword stages of `HybridFirstRow`. */
  lemma FirstRowLast(t2: Table, c: seq<Row>, d: seq<Row>, i: nat)
    requires i < |c + d| && (c + d)[i].sku !in t2.items
    requires forall j :: 0 <= j < i ==> (c + d)[j].sku != (c + d)[i].sku
    ensures Introduced(Absorb(Absorb(t2, Trgm, c), Kw, d), (c + d)[i])
  {
    var t3 := Absorb(t2, Trgm, c);
    var r := (c + d)[i];
    if i < |c| {
      FirstInSegment(t2, Trgm, c, d, i);
      StaysIntroduced(t3, Kw, d, r);
    } else {
      PastSegment(t2, Trgm, c, d, i);
      AbsorbIntroduces(t3, Kw, d, i - |c|);
    }
  }

  /** A first occurrence inside a segment is introduced by that segment's rows. */
  lemma FirstInSegment(t: Table, ch: Channel, a: seq<Row>, rest: seq<Row>, i: nat)
    requires i < |a| && (a + rest)[i].sku !in t.items
    requires forall j :: 0 <= j < i ==> (a + rest)[j].sku != (a + rest)[i].sku
    ensures Introduced(Absorb(t, ch, a), (a + rest)[i])
  {
    assert (a + rest)[i] == a[i];
    forall j | 0 <= j < i ensures a[j].sku != a[i].sku {
      assert (a + rest)[j] == a[j];
    }
    AbsorbIntroduces(t, ch, a, i);
  }

  /**
   * A first occurrence beyond the leading segment is absent from it, so the
   * segment's rows do not introduce it, and it is a first occurrence in the rest.
   */
  lemma PastSegment(t: Table, ch: Channel, a: seq<Row>, rest: seq<Row>, i: nat)
    requires |a| <= i < |a| + |rest|
    requires forall j :: 0 <= j < i ==> (a + rest)[j].sku != (a + rest)[i].sku
    requires (a + rest)[i].sku !in t.items
    ensures (a + rest)[i] == rest[i - |a|]
    ensures forall j :: 0 <= j < i - |a| ==> rest[j].sku != rest[i - |a|].sku
    ensures rest[i - |a|].sku !in Absorb(t, ch, a).items
  {
    var sku := (a + rest)[i].sku;
    forall j | 0 <= j < |a| ensures a[j].sku != sku {
      assert (a + rest)[j] == a[j];
    }
    AbsorbMissing(t, ch, a, sku);
    forall j | 0 <= j < i - |a| ensures rest[j].sku != sku {
      assert (a + rest)[|a| + j] == rest[j];
    }
  }
}
