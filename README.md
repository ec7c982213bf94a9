# search_products_api in Dafny

This project models the core of a product-search service for a building-supplies catalogue.

- **Search.** `search_products` answers a query in one of two ways. A single exact SKU or barcode match answers it directly. Otherwise it runs a hybrid search: four retrieval channels (vector distance, full-text relevance, trigram similarity and an `ILIKE` keyword match) are fused. Each channel's scores are normalised by that channel's maximum, and the channel weights are rebalanced over the channels that found something. The entries are then sorted by fused score, gated on keyword matches, and cut at `k`.
- **Paint.** `compute_cans` splits a paint volume greedily into cans, and `estimate_paint` builds an estimate on top of it.
- **Ingestion.** The CSV ingestion script normalises cells and parses Brazilian decimals. It builds the text to embed, chunks that text by tokens, and tries the CSV separators and encodings in a fixed order. It also diagnoses rows with the wrong column count, filters rows without a SKU, and numbers the chunk records.
- **VTEX shipping.** The VTEX shipping client builds its request headers and splits the requested SKUs into found and not-found. It reduces the simulation's logistics information to item indices, SLA ids and prices, and flattens the priced SLAs.

## How the code is modelled

The model takes the form of the code it comes from:

- **Loops.** Python loops that build lists, dictionaries or totals become Dafny methods with `while` loops. Each method is proved equal to a specification function: `ComputeCans`, `DiagnoseCsv`, `InsertChunks`, `Partition`, `ExtractSlasIdPrice`, the keyword-clause loop, the channel maxima and the rebalancing if-chain.
- **The candidate dictionary.** The `items` dictionary that `put` fills in place is the class `Fusion.CandidateTable`.
- **Expressions.** Pure expression code becomes functions. The properties are lemmas over those functions.
- **External calls.** Calls to the database, OpenAI, tiktoken, pandas and HTTP are parameters of the model, and their results arrive as inputs:
  - the rows of each channel query;
  - the query embedding;
  - `opens`, which says whether pandas reads a given attempt;
  - `embed`, the batch embedding call;
  - `lookup` and `post`, the two VTEX calls.

In these points the model follows the code as written:

- **Duplicate rows.** A later row of the same channel overwrites that channel's score for the SKU (last row wins).
- **Ties.** The sort is Python's stable sort on the score alone. Equal scores keep dictionary insertion order, with no SKU tie-break.
- **Method tag.** There is a third tag, `hybrid_with_deterministic_candidates`, used when the code lookup returned more than one row.
- **Confidence.** The confidence is read from the gated list before the `[:k]` cut. So `k <= 0` gives no results but a non-zero confidence. A negative `k` drops entries from the end, as Python slicing does.

## Model

| member | source | states |
|---|---|---|
| SearchProducts.CheckEmbedding | search_products.py:25-30 | an embedding is accepted exactly when its length is the configured dimension; otherwise the error names both lengths |
| SearchProducts.CodeOutcome | search_products.py:52-61 | a single code match gives method "deterministic", confidence 1 and one hit carrying the row's SKU, barcode, name and reason with score 1 |
| SearchProducts.Search | search_products.py:49-64 | one code row answers deterministically; otherwise the answer is an error exactly when the embedding has the wrong dimension, else the hybrid outcome |
| SearchProducts.Collect | search_products.py:140-152 | the four `put` calls on an empty dictionary give the aggregated table, channel by channel in source order |
| SearchProducts.HybridSearch | search_products.py:139-195 | merge, maxima, rebalancing, entry building and ranking together compute the hybrid outcome |
| SearchProducts.Rank | search_products.py:185-194 | sort, keyword gate, confidence from the gated head, then `[:k]` compute the ranked outcome |
| SearchProducts.HybridSorted | search_products.py:185-194 | results are in descending score order, at most `k` of them, and no two share a SKU; the confidence bounds every score and is 0 with no candidates |
| SearchProducts.EntriesUnique | search_products.py:140-183 | the built entries, one per dictionary key, have pairwise distinct SKUs |
| SearchProducts.HybridTag | search_products.py:191 | the method is "hybrid" exactly when the code lookup returned no rows, otherwise "hybrid_with_deterministic_candidates" |
| SearchProducts.RankedConfidence | search_products.py:185-189 | the confidence is 0 without entries; otherwise it is the score of an input entry (a keyword match when the gate fires), at least the score of every entry the gate keeps, and the same for every `k` |
| SearchProducts.RankedOutcome | search_products.py:185-195 | definition: sort, gate, confidence from the gated head, then `[:k]`; its properties are the Ranking lemmas and `RankedConfidence` |
| SearchProducts.HybridOutcome | search_products.py:139-195 | definition: merge, maxima, rebalancing, entries and ranking, with the method tag; its properties are the Hybrid lemmas |
| SearchProducts.HybridGate | search_products.py:186-194 | with the gate on and a keyword match present, the gated list holds exactly the candidates with a positive keyword score, every result has one, and the results are the sorted matches cut at `k` |
| SearchProducts.TableNonNegative | search_products.py:149-152 | non-negative raw scores give a table with only non-negative scores (the vector channel always) |
| SearchProducts.HybridInUnit | search_products.py:173-192 | with non-negative scores and weights, the confidence and every result's fused and normalised scores lie in [0, 1] |
| SearchProducts.EntriesOfInUnit | search_products.py:173-183 | with non-negative scores and weights, every built entry lies in [0, 1] |
| SearchProducts.HybridWeights | search_products.py:159-171 | rebalanced weights are non-negative and sum to 1 whenever a weighted channel found something |
| SearchProducts.RankedInUnit | search_products.py:185-194 | ranking only keeps input entries, so entries in [0, 1] give confidence and results in [0, 1] |
| SearchProducts.EmptyChannelIgnored | search_products.py:159-178 | a channel with no rows gets weight 0 and normalised score 0 in every entry |
| SearchProducts.TableLacks | search_products.py:141-152 | a channel with no rows leaves no score under it in the table |
| SearchProducts.HybridEmpty | search_products.py:154-195 | with no rows at all the answer has no results, confidence 0 and all weights 0 |
| SearchProducts.EmptyTable | search_products.py:140-152 | no rows give a dictionary with no keys |
| SearchProducts.NoCandidateWeights | search_products.py:154-171 | without candidates every maximum is 0, so every weight is 0 |
| SearchProducts.HybridTieOrder | search_products.py:174-185 | equal scores keep dictionary order, which is the order of first appearance over vector, full-text, trigram and keyword rows |
| SearchProducts.HybridCandidates | search_products.py:140-183 | exactly one candidate per distinct SKU over the four channels, and one entry per candidate in key order |
| SearchProducts.HybridFirstRow | search_products.py:144-146 | a candidate keeps the name and barcode of the first row, in merge order, that carries its SKU |
| SearchProducts.StaysIntroduced | search_products.py:144-146 | later rows never change a candidate's name or barcode |
| SearchProducts.FirstRowFrom | search_products.py:150-152 | the first-row property across the full-text, trigram and keyword stages |
| SearchProducts.FirstRowLast | search_products.py:151-152 | the first-row property across the trigram and keyword stages |
| SearchProducts.FirstInSegment | search_products.py:141-146 | a first occurrence inside one channel's rows is introduced by that channel |
| SearchProducts.PastSegment | search_products.py:141-146 | a first occurrence beyond one channel's rows is absent after that channel and is a first occurrence in the rest |
| KeywordQuery.Tokens | search_products.py:94-96 | the tokens are never empty: the query itself when it is blank, otherwise non-empty runs without white space |
| KeywordQuery.TokensWeave | search_products.py:94-96 | for a non-blank query, the tokens interleaved with white-space gaps (non-empty between tokens) rebuild the query exactly, so they are its maximal runs of non-space characters, in order |
| KeywordQuery.Patterns | search_products.py:97 | one `%token%` pattern per token, in order |
| KeywordQuery.Disjunction | search_products.py:106 | the condition for at least one token is not empty |
| KeywordQuery.JoinWrapped | search_products.py:106 | joining the parenthesised clauses with `OR` gives the n-token condition |
| KeywordQuery.DisjunctionHoles | search_products.py:104-106 | the n-token condition has 2n placeholders |
| KeywordQuery.MatchTest | search_products.py:109-131 | each scoring test, with or without `unaccent`, has one placeholder |
| KeywordQuery.KeywordSql | search_products.py:109-131 | the statement has three placeholders more than its condition |
| KeywordQuery.KeywordHead | search_products.py:109-114 | the selection up to `WHERE` binds two placeholders |
| KeywordQuery.Doubled | search_products.py:103-105 | twice as many parameters as patterns |
| KeywordQuery.DoubledAt | search_products.py:103-105 | parameters 2j and 2j+1 are both pattern j |
| KeywordQuery.ClausesAndParams | search_products.py:101-105 | one clause per pattern, and the doubled patterns as parameters |
| KeywordQuery.JoinClauses | search_products.py:106 | the condition is `TRUE` for no clauses, else the n-token disjunction |
| KeywordQuery.BuildKeywordQuery | search_products.py:94-119 | the parameters are the query pattern twice, each token pattern twice, then the limit; their count equals the statement's placeholders in both variants |
| Fusion.RowScore | search_products.py:149-152 | the vector score is `max(0, 1 - dist)`; the other channels record their raw score |
| Fusion.SetDefault | search_products.py:144-146 | after `setdefault` the row's SKU is a key |
| Fusion.Absorb | search_products.py:141-147 | `put` keeps the dictionary invariant, keeps the old keys as a prefix, and never changes an existing name or barcode |
| Fusion.StepWellFormed | search_products.py:143-147 | one row keeps the dictionary invariant |
| Fusion.Aggregate | search_products.py:149-152 | the four `put` calls give a well-formed dictionary |
| Fusion.CandidateTable.constructor | search_products.py:140 | the dictionary starts empty |
| Fusion.CandidateTable.Put | search_products.py:141-147 | the dictionary after `put` is the old one with the channel's rows absorbed |
| Fusion.AbsorbIntroduces | search_products.py:144-146 | the first row introducing a new SKU gives its name and barcode |
| Fusion.AbsorbMissing | search_products.py:141-147 | a SKU no row carries stays absent |
| Fusion.AbsorbLastWins | search_products.py:147 | the last row of a channel for a SKU decides that channel's score |
| Fusion.AbsorbOtherChannel | search_products.py:147 | one channel's rows leave the other channels' scores unchanged |
| Fusion.AbsorbLacks | search_products.py:141-147 | one channel's rows add no score under another channel |
| Fusion.AbsorbNonNegative | search_products.py:149-152 | non-negative row scores keep every score non-negative |
| Fusion.Skus | search_products.py:143 | the SKUs of the rows, in order |
| Fusion.AbsorbKeys | search_products.py:144 | the keys after a channel are the old keys followed by the channel's new SKUs in first-appearance order |
| Fusion.AggregateKeys | search_products.py:149-152 | the key order is first appearance over vector, full-text, trigram and keyword rows |
| Fusion.Column | search_products.py:154-157 | one value per candidate, in key order: its channel score or 0 |
| Fusion.MaxOr0 | search_products.py:154 | an upper bound of the values that is one of them, or 0 for none |
| Fusion.LacksMaximum | search_products.py:154-157 | a channel without scores has maximum 0 |
| Fusion.ChannelMax | search_products.py:154-157 | the generator loop computes the channel's maximum with default 0 |
| Fusion.Kept | search_products.py:160-169 | a channel keeps its weight exactly when its maximum is positive |
| Fusion.Reweighted | search_products.py:159-171 | empty channels weigh 0; kept weights are divided by their total when positive, so non-negative weights then sum to 1 |
| Fusion.NoSignalWeights | search_products.py:160-171 | with no positive maximum every weight is 0 |
| Fusion.Rebalance | search_products.py:159-171 | the if-chain computes the rebalanced weights |
| Fusion.Normalized | search_products.py:175-178 | 0 when the maximum is not positive; in [0, 1] for a score between 0 and the maximum |
| Fusion.Entries | search_products.py:173-183 | one entry per candidate |
| Fusion.BuildEntries | search_products.py:173-183 | the loop over `items.items()` builds the entries in key order |
| Fusion.FusedInUnit | search_products.py:179 | weights that are non-negative and sum to at most 1, applied to scores in [0, 1], give a fused score in [0, 1] |
| Fusion.NormalizedEntryInUnit | search_products.py:175-178 | every normalised channel score of a candidate lies in [0, 1] |
| Fusion.EntryInUnit | search_products.py:175-183 | under bounded weights an entry's fused and normalised scores lie in [0, 1] |
| Fusion.ReweightedBounded | search_products.py:170-171 | rebalanced non-negative weights are non-negative and sum to at most 1 |
| Fusion.NormsInUnit | search_products.py:175-178 | a candidate's four normalised scores lie in [0, 1] |
| Fusion.EntriesInUnit | search_products.py:173-183 | under bounded weights every entry lies in [0, 1] |
| Ranking.InsertByScore | search_products.py:185 | insertion adds one element |
| Ranking.SortByScore | search_products.py:185 | the sort keeps the length |
| Ranking.InsertByScorePermutes | search_products.py:185 | insertion adds exactly the inserted element |
| Ranking.SortByScorePermutes | search_products.py:185 | the sort is a permutation |
| Ranking.InsertSorted | search_products.py:185 | insertion keeps descending order, and the head is the larger of the two candidates for it |
| Ranking.SortByScoreSorted | search_products.py:185 | the sort's result is in descending score order |
| Ranking.InsertStable | search_products.py:185 | insertion appends to its own score class and leaves the other classes unchanged |
| Ranking.SortByScoreStable | search_products.py:185 | for every score, the entries with that score keep their relative order |
| Ranking.WithKeyword | search_products.py:188 | exactly the input entries with a positive keyword score are kept; some are kept when one matches; a one-entry list is kept or dropped whole |
| Ranking.WithKeywordAppend | search_products.py:188 | filtering a concatenation concatenates the filtered parts, so the kept entries keep their relative order |
| Ranking.WithKeywordSorted | search_products.py:188 | filtering keeps descending order |
| Ranking.GateProperties | search_products.py:187-188 | when on and a match exists, the gate keeps exactly the keyword matches; otherwise it changes nothing; it never empties a list and keeps descending order (relative order by `WithKeywordAppend`) |
| Ranking.Gate | search_products.py:187-188 | definition of the gate; its properties are `GateProperties` and `GatedMembers` |
| Ranking.KeywordGate | search_products.py:187-188 | the `any` scan and the filtering comprehension with `or results` compute the gate |
| Ranking.PyPrefix | search_products.py:194 | Python's `s[:k]`: the first `k` items, or all but the last `-k` when `k` is negative |
| Ranking.Ranked | search_products.py:185-194 | definition: sort, gate, then `[:k]`; its properties are the Ranked lemmas |
| Ranking.WithKeywordLength | search_products.py:188 | filtering never lengthens |
| Ranking.RankedSorted | search_products.py:185-194 | the ranked list is sorted, no longer than `k` or the input, bounded by the gated head, and the gated list is empty exactly when the input is |
| Ranking.RankedMembers | search_products.py:185-194 | every ranked entry, and the gated head, comes from the input |
| Ranking.RankedGate | search_products.py:187-194 | with a keyword match, the gated list is the sorted matches and holds exactly the input's matches, and every ranked entry matches |
| Ranking.SortKeepsKeyword | search_products.py:185-187 | sorting keeps a keyword-matched entry |
| Ranking.SortedMembers | search_products.py:185 | sorting keeps exactly the input's entries |
| Ranking.GatedMembers | search_products.py:185-188 | an entry is gated in exactly when it is an input entry and, when the gate fires, has a positive keyword score |
| Ranking.GatedHead | search_products.py:185-189 | the head of the gated list is an input entry whose score bounds every gated entry |
| Ranking.InsertUnique | search_products.py:185 | inserting an entry whose SKU is new keeps the SKUs distinct |
| Ranking.SortUnique | search_products.py:185 | sorting keeps the SKUs distinct |
| Ranking.WithKeywordUnique | search_products.py:188 | filtering keeps the SKUs distinct |
| Ranking.RankedUnique | search_products.py:185-194 | distinct input SKUs give distinct ranked SKUs |
| PyText.LStrip | search_products.py:94 | `lstrip` removes exactly the leading white space: a suffix that starts with a non-space character |
| PyText.RStrip | ingest_csv.py:54 | `rstrip` removes exactly the trailing white space: a prefix that ends with a non-space character |
| PyText.Strip | search_products.py:94 | the stripped text neither starts nor ends with white space |
| PyText.StripEnds | search_products.py:94 | right-stripping a left-stripped string leaves neither end white |
| PyText.StripBlank | vtex_shipping.py:18-19 | `strip` gives "" exactly when every character is white space |
| PyText.StripTrimmed | ingest_csv.py:161-164 | stripping a trimmed string changes nothing |
| PyText.StripIdempotent | ingest_csv.py:161-164 | `strip` is idempotent |
| PyText.WordLength | search_products.py:94 | the leading run of non-space characters ends at white space or at the end |
| PyText.Split | search_products.py:94 | definition of `split()`; its properties are `SplitWords`, `SplitWeave` and `SplitEmptyIffBlank` |
| PyText.SplitWords | search_products.py:94 | every piece `split()` returns is non-empty and free of white space |
| PyText.SplitWeave | search_products.py:94 | the pieces `split()` returns, interleaved with white-space gaps that are non-empty between pieces, rebuild the input |
| PyText.SplitShape | search_products.py:94 | a text with a non-space character is leading white space, a first word ending at white space or the end, and a rest whose pieces follow that word |
| PyText.StripParts | search_products.py:94 | a text is its leading white space, its stripped middle and its trailing white space |
| PyText.StripSplitWeave | search_products.py:94 | the pieces of `strip().split()` weave back into the unstripped text |
| PyText.SplitEmptyIffBlank | search_products.py:94-96 | `split()` is empty exactly when the text strips to "" |
| PyText.Join | ingest_csv.py:180 | joining no parts gives "", one part gives that part |
| PyText.Lower | ingest_csv.py:152 | lower-casing maps every character in place |
| PyText.ReplaceChar | ingest_csv.py:155 | after the replacement only characters of the replacement or the original other than the target remain |
| PyText.NatToString | vtex_shipping.py:79 | `str(n)` is a non-empty string of decimal digits |
| PyText.IntToString | vtex_shipping.py:79 | `str(i)` starts with a minus exactly for negative numbers |
| PyText.NatToStringRoundTrip | vtex_shipping.py:79 | reading back the digits gives the number |
| Seqs.AppendNewConcat | search_products.py:144 | adding new keys from `a` then from `b` is adding them from `a + b` |
| Seqs.AppendNewElements | search_products.py:144 | the keys stay distinct and are exactly the old ones and the new ones |
| Seqs.DedupOrder | search_products.py:144 | of two first occurrences, the earlier comes first among the keys |
| PaintEstimator.Max0 | paint_estimator.py:31 | `max(x, 0)` is non-negative, at least `x`, and one of the two |
| PaintEstimator.Positive | paint_estimator.py:30 | exactly the positive sizes of the input are kept |
| PaintEstimator.InsertDesc | paint_estimator.py:30 | insertion adds one element |
| PaintEstimator.SortDesc | paint_estimator.py:30 | the sort keeps the length |
| PaintEstimator.InsertDescPermutes | paint_estimator.py:30 | insertion adds exactly the inserted size |
| PaintEstimator.SortDescPermutes | paint_estimator.py:30 | `sorted` is a permutation |
| PaintEstimator.InsertDescSorted | paint_estimator.py:30 | insertion keeps descending order |
| PaintEstimator.SortDescSorted | paint_estimator.py:30 | `sorted(..., reverse=True)` is descending |
| PaintEstimator.SizesProperties | paint_estimator.py:30 | the visited sizes are descending, positive and from the input, and include every positive input size |
| PaintEstimator.Ceil | paint_estimator.py:44 | `math.ceil` is the least integer at or above its argument |
| PaintEstimator.PositiveQuotient | paint_estimator.py:42-45 | a positive remainder needs at least one more can |
| PaintEstimator.NonZeroMembers | paint_estimator.py:51 | every kept can has a positive count and its dictionary count |
| PaintEstimator.Zeros | paint_estimator.py:32 | every visited size starts at 0 cans |
| PaintEstimator.ComputeCans | paint_estimator.py:12-52 | the greedy loop, the top-up, the litre sum and the zero filter compute the plan |
| PaintEstimator.Plan | paint_estimator.py:30-52 | definition of `compute_cans` as a value; its properties are `PlanCovers`, `PlanNoSizes` and `PlanCans` |
| PaintEstimator.GreedyLoop | paint_estimator.py:34-40 | the `for` loop with its `break` computes the greedy phase |
| PaintEstimator.Greedy | paint_estimator.py:34-40 | definition of the greedy phase; its invariant is `GreedyAccounts` |
| PaintEstimator.TakeStep | paint_estimator.py:37-40 | one body of the loop takes `int(remaining // s)` cans |
| PaintEstimator.Take | paint_estimator.py:37-40 | definition of one greedy step; its invariant is `TakeAccounts` |
| PaintEstimator.TopUpStep | paint_estimator.py:42-46 | the top-up adds `ceil(remaining / smallest)` cans when more than the tolerance remains |
| PaintEstimator.TopUp | paint_estimator.py:42-46 | definition of the top-up; its invariant is `TopUpAccounts` |
| PaintEstimator.SumLiters | paint_estimator.py:48 | the generator sum computes the litres |
| PaintEstimator.LitersUpdate | paint_estimator.py:39-40 | adding `q` cans of a size adds `q` times its size |
| PaintEstimator.LitersUnchanged | paint_estimator.py:48 | the litres depend only on the counts of the keys |
| PaintEstimator.LitersZero | paint_estimator.py:32 | no cans add up to 0 litres |
| PaintEstimator.TakeAccounts | paint_estimator.py:34-40 | one greedy step keeps "remaining = needed - litres taken" and never overshoots |
| PaintEstimator.GreedyAccounts | paint_estimator.py:34-40 | the greedy loop keeps that invariant and leaves a non-negative remainder |
| PaintEstimator.TopUpAccounts | paint_estimator.py:42-46 | the top-up keeps the invariant, leaves at most the tolerance and overshoots by less than one smallest can |
| PaintEstimator.NonZeroLiters | paint_estimator.py:48-51 | dropping zero quantities keeps the litres |
| PaintEstimator.CansLitersAppend | paint_estimator.py:48 | the litres of one more can |
| PaintEstimator.FinalAccounts | paint_estimator.py:30-46 | after loop and top-up the invariant holds and the remainder lies between minus one smallest can and the tolerance |
| PaintEstimator.PlanCovers | paint_estimator.py:30-52 | the litres are those of the cans, cover the need up to the tolerance and exceed it by less than any positive size; the waste is the non-negative excess |
| PaintEstimator.PlanNoSizes | paint_estimator.py:30-52 | without a positive size nothing is bought |
| PaintEstimator.PlanCans | paint_estimator.py:30-51 | every can has a positive count and a positive input size; sizes are strictly descending |
| PaintEstimator.DedupDescending | paint_estimator.py:32 | the dictionary's keys stay descending |
| PaintEstimator.NonZeroDescending | paint_estimator.py:51 | the kept cans are strictly descending by size |
| PaintEstimator.SizesOrDefault | paint_estimator.py:74 | a missing or empty list means the default sizes |
| PaintEstimator.LitersFor | paint_estimator.py:76-78 | litres times coverage is area times coats; 0 without a positive coverage |
| PaintEstimator.EstimatePaint | paint_estimator.py:74-91 | the paintable area, litres, cans, litres bought, waste and can count of the estimate |
| PaintEstimator.DefaultSizesPositive | paint_estimator.py:74 | the default sizes include a positive one |
| PaintEstimator.EstimateCovers | paint_estimator.py:74-80 | the estimate buys the litres needed up to the tolerance, and with the defaults less than 0.5 L beyond them |
| IngestCsv.NormStr | ingest_csv.py:161-164 | `None` and NaN give ""; a string gives its stripped text; the result is trimmed |
| IngestCsv.NormStrIdempotent | ingest_csv.py:161-164 | normalising twice is normalising once |
| IngestCsv.DecimalLiteral | ingest_csv.py:155 | the rewritten literal has no comma |
| IngestCsv.ParseDecimalBr | ingest_csv.py:148-159 | `None` for missing, blank and "nan"/"none" text and for unparsable literals; otherwise the rewritten literal |
| IngestCsv.ReplaceCharConcat | ingest_csv.py:155 | replacement distributes over concatenation |
| IngestCsv.ReplaceCharAround | ingest_csv.py:155 | replacement around one character |
| IngestCsv.ReplaceCharAbsent | ingest_csv.py:155 | a string without the target is unchanged |
| IngestCsv.DecimalLiteralBr | ingest_csv.py:154-155 | `int.thousands,fraction` becomes `intthousands.fraction` |
| IngestCsv.NonEmpty | ingest_csv.py:179 | exactly the non-empty parts are kept; empty exactly when all parts are empty |
| IngestCsv.JoinTrimmed | ingest_csv.py:180 | joining non-empty trimmed parts gives a non-empty trimmed text |
| IngestCsv.BaseBlank | ingest_csv.py:179-180 | the base text is empty exactly when name, type and description all are; otherwise it is trimmed |
| IngestCsv.LStripKeeps | ingest_csv.py:185 | a text starting with a non-space character is not changed by `lstrip` |
| IngestCsv.MetaEnds | ingest_csv.py:184 | the metadata line starts with a line break and "S" and ends in a non-space character |
| IngestCsv.TextShape | ingest_csv.py:179-185 | with a SKU the text is the base followed by the metadata, or the metadata without its line break when the base is blank |
| IngestCsv.TrimmedConcat | ingest_csv.py:185 | a trimmed text followed by one ending in non-space is not changed by `strip` |
| IngestCsv.StripLeadingBreak | ingest_csv.py:185 | `strip` drops exactly the single leading break of an otherwise trimmed text |
| IngestCsv.ProductTextShape | ingest_csv.py:174-185 | `build_product_text` for a row with a SKU is base plus metadata, the break dropped without base |
| IngestCsv.BuildProductText | ingest_csv.py:174-185 | definition of `build_product_text`; its properties are `TextShape` and `ProductTextShape` |
| IngestCsv.SlicesProperties | ingest_csv.py:169-170 | the slices concatenate to the input; each is non-empty and at most `size`, all but the last exactly `size` |
| IngestCsv.SliceLoop | ingest_csv.py:169-171 | the `range(0, len, size)` loop computes the slices |
| IngestCsv.ChunkByTokens | ingest_csv.py:166-172 | an error for size 0, one empty chunk for a negative size, otherwise the chunks |
| IngestCsv.Chunks | ingest_csv.py:166-172 | definition of the chunks for a positive size; their properties are `ChunksProperties` |
| IngestCsv.ChunksProperties | ingest_csv.py:166-172 | the chunks cover the tokens in order within the size, and an empty text gives exactly one empty chunk |
| IngestCsv.CheckDims | ingest_csv.py:196-199 | the vectors are accepted exactly when every one has the expected dimension |
| IngestCsv.EmbedBatchesDims | ingest_csv.py:236-239 | every embedding of a successful run has the expected dimension |
| IngestCsv.InsertChunks | ingest_csv.py:230-255 | an error exactly when a batch fails; otherwise records numbered from 1 pairing each text with its embedding, as many as `zip` gives |
| IngestCsv.MapOkEmpty | ingest_csv.py:236-239 | gathering nothing changes nothing |
| IngestCsv.MapOkAppend | ingest_csv.py:236-239 | gathering in two steps is gathering once |
| IngestCsv.Without | ingest_csv.py:76 | the filtered list lacks `x` and keeps every other item |
| IngestCsv.WithoutOrder | ingest_csv.py:76 | on distinct items filtering deletes just the occurrence of `x` |
| IngestCsv.Prioritize | ingest_csv.py:75-78 | a given override comes first, once, followed by the other defaults; no override leaves the defaults |
| IngestCsv.AttemptRow | ingest_csv.py:81-82 | one standard attempt per separator for an encoding |
| IngestCsv.Tolerant | ingest_csv.py:100-106 | one tolerant attempt per encoding, with the tolerant separator |
| IngestCsv.AttemptsOrder | ingest_csv.py:68-106 | the first attempt uses the overrides or "," and "utf-8"; every standard attempt precedes every tolerant one, which use the override or ";" |
| IngestCsv.AttemptsFromOrder | ingest_csv.py:68-106 | the same order for any non-empty default lists |
| IngestCsv.Attempts | ingest_csv.py:68-106 | definition of the attempt order; its properties are `AttemptsOrder` and `StandardNotTolerant` |
| IngestCsv.StandardNotTolerant | ingest_csv.py:80-97 | no standard attempt is tolerant |
| IngestCsv.FirstOpenProperties | ingest_csv.py:80-119 | the first success opens and all earlier attempts fail; none exactly when all fail |
| IngestCsv.FirstOpenAppend | ingest_csv.py:80-119 | the first success of two phases is the first phase's, else the second's |
| IngestCsv.TrySeps | ingest_csv.py:82-97 | the separator loop returns the first attempt that opens |
| IngestCsv.TryStandard | ingest_csv.py:81-97 | the nested loops return the first standard attempt that opens |
| IngestCsv.TryTolerant | ingest_csv.py:100-119 | the tolerant loop returns the first tolerant attempt that opens |
| IngestCsv.ReadCsvSafely | ingest_csv.py:61-121 | the first attempt that opens, or the exit message when none does |
| IngestCsv.Snippet | ingest_csv.py:54 | the snippet is the first 160 characters of the right-stripped line, or all of it when shorter |
| IngestCsv.DiagnoseCsv | ingest_csv.py:37-59 | the loop computes the diagnosis of the rows |
| IngestCsv.ScanMembers | ingest_csv.py:52-56 | the scan reports exactly the mismatched rows from its start |
| IngestCsv.ScanOrdered | ingest_csv.py:51-56 | the scan's line numbers increase and follow its start |
| IngestCsv.DiagnosisExact | ingest_csv.py:46-56 | exactly the rows whose column count differs from the header's are reported, with their counts, from line 2 in order |
| IngestCsv.Diagnosis | ingest_csv.py:37-59 | definition of the diagnosis; its properties are `DiagnosisExact` and `DiagnosisEmpty` |
| IngestCsv.ScanLines | ingest_csv.py:51-56 | every entry of the scan is on a line after its start or is the failure entry |
| IngestCsv.DiagnosisEmpty | ingest_csv.py:46-49 | the single empty-file entry `(1, 0, 0, "<arquivo vazio>")` is reported exactly when the reader yields no header row |
| IngestCsv.MissingRequired | ingest_csv.py:281 | exactly the required columns the file lacks |
| IngestCsv.Absent | ingest_csv.py:286-288 | exactly the expected columns the file lacks |
| IngestCsv.PaddedWith | ingest_csv.py:286-288 | the columns keep their order and gain exactly the missing expected ones |
| IngestCsv.Limited | ingest_csv.py:290-291 | `head(limit)` for a positive limit, every row otherwise |
| IngestCsv.FilterMapMembers | ingest_csv.py:301-304 | every result comes from a kept element and every kept element gives its result |
| IngestCsv.RawEntries | ingest_csv.py:317 | the raw dump has no price column and holds every other column with its normalised value |
| IngestCsv.Ingest | ingest_csv.py:281-304 | an error exactly when a required column is missing; otherwise the products of the limited rows over the padded columns |
| IngestCsv.KeepRows | ingest_csv.py:301-304 | the loop with `continue` builds the product of every kept row, in order |
| IngestCsv.Products | ingest_csv.py:301-317 | definition of the products of the rows with a SKU; its properties are `ProductsRows` and `ProductsClean` |
| IngestCsv.ProductsRows | ingest_csv.py:301-304 | products come exactly from the rows with a SKU |
| IngestCsv.ProductsClean | ingest_csv.py:302-317 | every product has a non-blank stripped SKU and no price column in its raw dump |
| VtexShipping.Setting | vtex_shipping.py:16-19 | an unset variable gives "", a set one its stripped value |
| VtexShipping.BlankSetting | vtex_shipping.py:18-19 | a value of only white space counts as unset |
| VtexShipping.VtexHeaders | vtex_shipping.py:22-30 | JSON accept and content type always; both credentials exactly when key and token are both set |
| VtexShipping.IdText | vtex_shipping.py:79 | the id text starts with a minus exactly for negative ids |
| VtexShipping.SellerOf | vtex_shipping.py:81 | a missing or empty seller is "1", a given one is kept |
| VtexShipping.Partition | vtex_shipping.py:73-82 | the lookup loop gives the request entries of found items and the SKUs of missing ones, in item order |
| VtexShipping.Converted | vtex_shipping.py:73-82 | definition of the request entries; its properties are `ConvertedComplete` and `ConvertedSound` |
| VtexShipping.NotFound | vtex_shipping.py:73-77 | definition of the missing SKUs; its properties are `NotFoundComplete` and `NotFoundSound` |
| VtexShipping.PartitionSizes | vtex_shipping.py:73-82 | every item lands in exactly one of the lists |
| VtexShipping.ConvertedComplete | vtex_shipping.py:78-82 | every found item contributes its entry |
| VtexShipping.ConvertedSound | vtex_shipping.py:78-82 | every entry is that of a found item |
| VtexShipping.NotFoundComplete | vtex_shipping.py:74-77 | every missing item's SKU is reported |
| VtexShipping.NotFoundSound | vtex_shipping.py:74-77 | every reported SKU is missing |
| VtexShipping.PayloadIdRoundTrip | vtex_shipping.py:79 | the id text is the decimal digits of the product id |
| VtexShipping.Dicts | vtex_shipping.py:114 | only objects of the list are kept |
| VtexShipping.DictsComplete | vtex_shipping.py:114 | every object of the list is kept |
| VtexShipping.DictsIn | vtex_shipping.py:109-115 | `x or []` iterated: an error exactly for a truthy number or boolean; the objects of a list |
| VtexShipping.SimplifyInfo | vtex_shipping.py:108-116 | an entry simplifies exactly when it is an object with iterable SLAs, keeping its item index and one id/price per SLA object |
| VtexShipping.SimplifyAll | vtex_shipping.py:107-116 | definition of the simplification of every entry; its properties are `SimplifyAllProperties` and `SimplifyAllFails` |
| VtexShipping.SimplifyAllProperties | vtex_shipping.py:107-116 | one simplified entry per entry; an error exactly when one entry fails |
| VtexShipping.Infos | vtex_shipping.py:108 | a list's elements are iterated in order |
| VtexShipping.SimplifyLoop | vtex_shipping.py:107-116 | the loop computes the simplification |
| VtexShipping.SimplifyAllFails | vtex_shipping.py:107-116 | the first failing entry decides the error |
| VtexShipping.SimulateShippingForSkus | vtex_shipping.py:60-134 | no found SKU answers at once with the missing SKUs; otherwise an HTTP error or another failure gives its prefixed message; a body whose logistics, iteration or simplification fails gives that error under the failure prefix; a body that succeeds gives the missing SKUs, the request, the logistics information and its simplification |
| VtexShipping.AppendPriced | vtex_shipping.py:141-143 | the inner loop appends the id and price of the priced SLAs |
| VtexShipping.ExtractSlasIdPrice | vtex_shipping.py:137-144 | nothing for a missing list; otherwise the flattened priced SLAs or the first error |
| VtexShipping.ExtractAll | vtex_shipping.py:137-144 | definition of the flattened extraction; its properties are `ExtractAllFails`, `PricedOfMembers` and `ExtractMatchesSimplify` |
| VtexShipping.ExtractAllFails | vtex_shipping.py:140-143 | the first failing entry decides the error |
| VtexShipping.PricedOfMembers | vtex_shipping.py:141-143 | exactly the SLA objects holding both id and price are extracted |
| VtexShipping.PricedOfAll | vtex_shipping.py:141-143 | with every SLA priced, the extraction is the whole projection |
| VtexShipping.ExtractMatchesSimplify | vtex_shipping.py:137-144 | extraction fails exactly when the simplification does; with every SLA priced it is the simplified SLAs flattened |

## Left out

- Rounding: `round(..., 4)` for scores and confidence, `round(..., 2)` for weights and `round(..., 3)` for paint litres are not modelled. All quantities are exact reals, so floating-point error is not modelled either.
- The database is out: `psycopg2`, `connect_db`, `find_by_code`, the channel SQL functions and the upsert. `Search` takes the code rows and the channel rows already fetched. A trigram or keyword query that fails is simply an empty list of rows.
- The keyword SQL is modelled as literal text pieces and placeholders, not executed. The channels' `or 0.0` and `.get("score_kw", 0.0)` defaults are taken as already applied to the raw scores.
- OpenAI embeddings, `to_pgvector`, tiktoken encoding and decoding, the pandas reader and `csv.reader` are all inputs. The chunker works on the token sequence and leaves decoding out.
- `Decimal` parsing is the `parses` predicate, and the parsed value is the normalised literal.
- Files and printing are out: the bad-lines report file, the console messages, and the failure to open the file in `diagnose_csv`.
- `json.dumps` of the raw dump is out.
- Environment variables are out. `BATCH_SIZE`, `EMB_DIM` and the VTEX settings are parameters or constants. The API-key and database assertions are omitted.
- HTTP is out: `get_product_id_by_sku` is the `lookup` parameter and `requests.post` is `post`. Only the message prefixes of the errors are modelled, not the exception texts.
- VtexShipping.DictsIn: a JSON object's iteration yields its keys, which are strings, never dictionaries, so it is modelled as yielding no SLA objects.
- VtexShipping.IdText: the request keeps the product id as an integer, and `IdText` gives the `str(pid)` text sent for it.
- VtexShipping.SimulateShippingForSkus: the `ok` flags and `geoCoordinates: []` are implied by the outcome's constructor rather than stored.
- Ranking.SortByScore: the built-in `list.sort` is modelled by this stable insertion-sort function, not by an in-place loop.
- PyText.Strip: its contract states that the result neither starts nor ends with white space, and `StripBlank` states when it is empty. It does not state that the result is the middle slice of the input. That follows from the `LStrip` and `RStrip` contracts it is composed of.
- PyText.Lower: lower-cases ASCII letters only. It is used only for comparing against "nan" and "none".
- NaN in `parse_decimal_br` and `norm_str` is a separate cell value, `NanValue`, rather than a float.
- IngestCsv.Value: has no float cell other than NaN. The main loop reads the file with `dtype=str`, so cells are strings or missing. So `str(x)` of a non-NaN float, which `parse_decimal_br` and `norm_str` (ingest_csv.py:147-164) would accept, is not modelled.
- The API routes (`api.py`), `vtex_client.py`, the CSV inspection scripts and the Pagar.me check are not part of this model.
