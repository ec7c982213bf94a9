/**
 * The CSV ingestion script: the helpers that normalise cell values and build
 * the text to embed, the token chunking, the order in which the reader tries
 * separators and encodings, the column-count diagnosis, the row filtering of
 * the main loop and the numbering of the chunk records. Files, pandas, the
 * CSV tokenizer, tiktoken, the embedding service and the database are not
 * modelled: their results are inputs.
 */
module IngestCsv {
  import opened Wrappers
  import opened PyText
  import SearchProducts

  // ----- Cell values -----

  /** A cell as the helpers receive it: `None`, a float NaN, an integer or a string. */
  datatype Value = NoneValue | NanValue | IntValue(i: int) | StrValue(s: string)

  /** `str(x)` for the values that are not `None` or NaN. */
  function Str(v: Value): string
    requires v.IntValue? || v.StrValue?
  {
    if v.IntValue? then IntToString(v.i) else v.s
  }

  /** `norm_str`: `None` and NaN become "", anything else its stripped text. */
  function NormStr(v: Value): (r: string)
    ensures Trimmed(r)
    ensures (v.NoneValue? || v.NanValue?) ==> r == ""
    ensures v.StrValue? ==> r == Strip(v.s)
  {
    if v.NoneValue? || v.NanValue? then "" else Strip(Str(v))
  }

  /** Normalising a normalised string changes nothing. */
  lemma NormStrIdempotent(v: Value)
    ensures NormStr(StrValue(NormStr(v))) == NormStr(v)
  {
    StripTrimmed(NormStr(v));
  }

  /** The missing-value spellings `parse_decimal_br` recognises after lower-casing. */
  predicate MissingWord(s: string) {
    Lower(s) == "nan" || Lower(s) == "none"
  }

  /** Drops the thousands separators (".") and turns the decimal comma into a point. */
  function DecimalLiteral(s: string): (r: string)
    ensures ',' !in r
  {
    ReplaceChar(ReplaceChar(s, '.', ""), ',', ".")
  }

  /**
   * `parse_decimal_br`: `None` for `None`, NaN, blank text and the words
   * "nan"/"none" in any case; otherwise the normalised literal when
   * `parses` accepts it (the source hands it to `Decimal`), else `None`.
   */
  function ParseDecimalBr(v: Value, parses: string -> bool): (r: Option<string>)
    ensures (v.NoneValue? || v.NanValue?) ==> r.None?
    ensures (v.IntValue? || v.StrValue?) && (Strip(Str(v)) == "" || MissingWord(Strip(Str(v)))) ==> r.None?
    ensures r.Some? ==> r.value == DecimalLiteral(Strip(Str(v))) && parses(r.value)
    ensures ((v.IntValue? || v.StrValue?) && Strip(Str(v)) != "" && !MissingWord(Strip(Str(v)))
             && parses(DecimalLiteral(Strip(Str(v))))) ==> r.Some?
  {
    if v.NoneValue? || v.NanValue? then None
    else
      var s := Strip(Str(v));
      if s == "" || MissingWord(s) then None
      else
        var lit := DecimalLiteral(s);
        if parses(lit) then Some(lit) else None
  }

  /** Replacing a character distributes over concatenation. */
  lemma {:induction false} ReplaceCharConcat(a: string, b: string, target: char, repl: string)
    ensures ReplaceChar(a + b, target, repl) == ReplaceChar(a, target, repl) + ReplaceChar(b, target, repl)
    decreases |a|
  {
    if a == [] {
      assert a + b == b;
    } else {
      assert (a + b)[0] == a[0] && (a + b)[1..] == a[1..] + b;
      ReplaceCharConcat(a[1..], b, target, repl);
    }
  }

  /** Replacing around one separator character: the pieces on either side are replaced on their own. */
  lemma ReplaceCharAround(x: string, c: char, y: string, target: char, repl: string)
    ensures ReplaceChar(x + [c] + y, target, repl)
         == ReplaceChar(x, target, repl) + (if c == target then repl else [c]) + ReplaceChar(y, target, repl)
  {
    ReplaceCharConcat(x + [c], y, target, repl);
    ReplaceCharConcat(x, [c], target, repl);
    assert [c][1..] == [];
  }

  /** A string without the target character is left as it is. */
  lemma {:induction false} ReplaceCharAbsent(s: string, target: char, repl: string)
    requires target !in s
    ensures ReplaceChar(s, target, repl) == s
    decreases |s|
  {
    if s != [] {
      ReplaceCharAbsent(s[1..], target, repl);
    }
  }

  /**
   * A Brazilian-formatted number `int.thousands,fraction` becomes
   * `intthousands.fraction`, the literal `Decimal` reads.
   */
  lemma DecimalLiteralBr(whole: string, thousands: string, fraction: string)
    requires '.' !in whole && ',' !in whole && '.' !in thousands && ',' !in thousands
    requires '.' !in fraction && ',' !in fraction
    ensures DecimalLiteral(whole + "." + thousands + "," + fraction) == whole + thousands + "." + fraction
  {
    var head := whole + ['.'] + thousands;
    var s := head + [','] + fraction;
    assert whole + "." + thousands + "," + fraction == s;
    var once := (whole + thousands) + [','] + fraction;
    assert ReplaceChar(s, '.', "") == once by {
      assert ReplaceChar(head, '.', "") == whole + thousands by {
        ReplaceCharAbsent(whole, '.', "");
        ReplaceCharAbsent(thousands, '.', "");
        ReplaceCharAround(whole, '.', thousands, '.', "");
      }
      ReplaceCharAbsent(fraction, '.', "");
      ReplaceCharAround(head, ',', fraction, '.', "");
    }
    assert ReplaceChar(once, ',', ".") == whole + thousands + "." + fraction by {
      ReplaceCharAbsent(whole + thousands, ',', ".");
      ReplaceCharAbsent(fraction, ',', ".");
      ReplaceCharAround(whole + thousands, ',', fraction, ',', ".");
    }
  }

  // ----- The text to embed -----

  /** A row: the cells of one CSV line by column name. */
  type Row = map<string, Value>

  /** `row.get(k)`: `None` for a column the row lacks. */
  function Get(r: Row, k: string): Value {
    if k in r then r[k] else NoneValue
  }

  /** `norm_str(row.get(k))`. */
  function Field(r: Row, k: string): string {
    NormStr(Get(r, k))
  }

  /** `[p for p in parts if p]`. */
  function NonEmpty(parts: seq<string>): (r: seq<string>)
    ensures forall i :: 0 <= i < |r| ==> r[i] != [] && r[i] in parts
    ensures (forall i :: 0 <= i < |parts| ==> parts[i] != []) ==> r == parts
    ensures r == [] <==> forall i :: 0 <= i < |parts| ==> parts[i] == []
  {
    if parts == [] then []
    else (if parts[0] != [] then [parts[0]] else []) + NonEmpty(parts[1..])
  }

  /** The name, type and technical description joined by " | ", blanks dropped. */
  function Base(name: string, tipo: string, desc: string): string {
    Join(" | ", NonEmpty([name, tipo, desc]))
  }

  /** The metadata line: the SKU, and the barcode only when there is one. */
  function Meta(sku: string, ean: string): string {
    "\nSKU: " + sku + (if ean != "" then " | EAN: " + ean else "")
  }

  /** The text to embed for the given normalised fields. */
  function ProductText(name: string, tipo: string, desc: string, sku: string, ean: string): string {
    Strip(Base(name, tipo, desc) + Meta(sku, ean))
  }

  /** `build_product_text`. */
  function BuildProductText(r: Row): string {
    ProductText(Field(r, "descricao"), Field(r, "tipo"), Field(r, "descricao_tecnica"),
                Field(r, "codigo_produto"), Field(r, "codigo_barras"))
  }

  /** Joining non-empty strings that neither start nor end with white space gives such a string. */
  lemma {:induction false} JoinTrimmed(sep: string, parts: seq<string>)
    requires forall i :: 0 <= i < |parts| ==> parts[i] != [] && Trimmed(parts[i])
    ensures parts != [] ==> Join(sep, parts) != [] && Trimmed(Join(sep, parts))
    decreases |parts|
  {
    if |parts| > 1 {
      JoinTrimmed(sep, parts[1..]);
      var tail := Join(sep, parts[1..]);
      var r := parts[0] + sep + tail;
      assert r[0] == parts[0][0];
      assert r[|r| - 1] == tail[|tail| - 1];
    }
  }

  /** The base text is blank exactly when name, type and description all are; otherwise it is trimmed. */
  lemma BaseBlank(name: string, tipo: string, desc: string)
    requires Trimmed(name) && Trimmed(tipo) && Trimmed(desc)
    ensures Base(name, tipo, desc) == "" <==> name == "" && tipo == "" && desc == ""
    ensures Base(name, tipo, desc) != "" ==> Trimmed(Base(name, tipo, desc))
  {
    var all := [name, tipo, desc];
    var parts := NonEmpty(all);
    assert all[0] == name && all[1] == tipo && all[2] == desc;
    assert parts == [] <==> name == "" && tipo == "" && desc == "";
    forall i | 0 <= i < |parts| ensures parts[i] != [] && Trimmed(parts[i]) {
      assert parts[i] in all;
    }
    JoinTrimmed(" | ", parts);
  }

  /** `lstrip` leaves a string that starts with a non-space character as it is. */
  lemma LStripKeeps(t: string)
    requires t != [] && !IsSpace(t[0])
    ensures LStrip(t) == t
  {
  }

  /** The metadata line starts with the line break and "S" and, with a SKU, ends in a non-space character. */
  lemma MetaEnds(sku: string, ean: string)
    requires Trimmed(sku) && Trimmed(ean) && sku != ""
    ensures var meta := Meta(sku, ean);
      |meta| > 1 && meta[0] == '\n' && meta[1] == 'S' && !IsSpace(meta[|meta| - 1])
  {
    var meta := Meta(sku, ean);
    if ean != "" {
      assert meta[|meta| - 1] == ean[|ean| - 1];
    } else {
      assert meta[|meta| - 1] == sku[|sku| - 1];
    }
  }

  /**
   * With a SKU, the final strip only removes the leading line break when
   * there is no base text: the text is the base followed by the metadata, or
   * the metadata line alone.
   */
  lemma TextShape(name: string, tipo: string, desc: string, sku: string, ean: string)
    requires Trimmed(name) && Trimmed(tipo) && Trimmed(desc) && Trimmed(sku) && Trimmed(ean)
    requires sku != ""
    ensures var base := Base(name, tipo, desc); var meta := Meta(sku, ean);
      && (base != "" ==> ProductText(name, tipo, desc, sku, ean) == base + meta)
      && (base == "" ==> ProductText(name, tipo, desc, sku, ean) == meta[1..])
  {
    var meta := Meta(sku, ean);
    var base := Base(name, tipo, desc);
    BaseBlank(name, tipo, desc);
    MetaEnds(sku, ean);
    if base != "" {
      TrimmedConcat(base, meta);
    } else {
      VisibleAsciiNotSpace(meta[1]);
      StripLeadingBreak(meta);
      assert base + meta == meta;
    }
  }

  /** A trimmed non-empty string followed by one ending in a non-space character is left as it is by `strip`. */
  lemma TrimmedConcat(a: string, b: string)
    requires a != [] && Trimmed(a) && b != [] && !IsSpace(b[|b| - 1])
    ensures Strip(a + b) == a + b
  {
    var t := a + b;
    assert t[0] == a[0] && t[|t| - 1] == b[|b| - 1];
    StripTrimmed(t);
  }

  /** `strip` drops a single leading space character in front of a string that is otherwise trimmed. */
  lemma StripLeadingBreak(t: string)
    requires |t| > 1 && IsSpace(t[0]) && !IsSpace(t[1]) && !IsSpace(t[|t| - 1])
    ensures Strip(t) == t[1..]
  {
    var line := t[1..];
    LStripKeeps(line);
    assert LStrip(t) == line;
    assert line[|line| - 1] == t[|t| - 1];
    StripTrimmed(line);
  }

  /** `build_product_text` for a row with a SKU: the base text and the metadata, the line break dropped when there is no base. */
  lemma ProductTextShape(r: Row)
    requires Field(r, "codigo_produto") != ""
    ensures var base := Base(Field(r, "descricao"), Field(r, "tipo"), Field(r, "descricao_tecnica"));
      var meta := Meta(Field(r, "codigo_produto"), Field(r, "codigo_barras"));
      && (base != "" ==> BuildProductText(r) == base + meta)
      && (base == "" ==> BuildProductText(r) == meta[1..])
  {
    TextShape(Field(r, "descricao"), Field(r, "tipo"), Field(r, "descricao_tecnica"),
              Field(r, "codigo_produto"), Field(r, "codigo_barras"));
  }

  // ----- chunk_by_tokens and the embedding batches -----

  /** The slices `s[i:i+size]` for `i` in `range(0, len(s), size)`. */
  function Slices<T>(s: seq<T>, size: nat): seq<seq<T>>
    requires size > 0
    decreases |s|
  {
    if s == [] then []
    else if |s| <= size then [s]
    else [s[..size]] + Slices(s[size..], size)
  }

  /** The concatenation of a list of sequences. */
  function Concat<T>(ss: seq<seq<T>>): seq<T>
    decreases |ss|
  {
    if ss == [] then [] else ss[0] + Concat(ss[1..])
  }

  /** The slices put back together give the input; each is non-empty, at most `size` long, and all but the last exactly `size`. */
  lemma {:induction false} SlicesProperties<T>(s: seq<T>, size: nat)
    requires size > 0
    ensures var r := Slices(s, size);
      && Concat(r) == s
      && (r == [] <==> s == [])
      && (forall i :: 0 <= i < |r| ==> 0 < |r[i]| <= size)
      && (forall i :: 0 <= i < |r| - 1 ==> |r[i]| == size)
    decreases |s|
  {
    if |s| > size {
      SlicesProperties(s[size..], size);
      var r := Slices(s, size);
      assert r[1..] == Slices(s[size..], size);
      assert s == s[..size] + s[size..];
    } else if s != [] {
      assert Concat([s]) == s + Concat([]);
    }
  }

  /** The `range(0, len(s), size)` loop: slices `s` into consecutive pieces of `size`. */
  method SliceLoop<T>(s: seq<T>, size: nat) returns (slices: seq<seq<T>>)
    requires size > 0
    ensures slices == Slices(s, size)
  {
    slices := [];
    var i := 0;
    while i < |s|
      invariant 0 <= i <= |s|
      invariant slices + Slices(s[i..], size) == Slices(s, size)
      decreases |s| - i
    {
      var j := if i + size < |s| then i + size else |s|;
      ghost var rest := s[i..];
      assert Slices(rest, size) == [s[i..j]] + Slices(s[j..], size) by {
        if |rest| > size {
          assert rest[..size] == s[i..j] && rest[size..] == s[j..];
        } else {
          assert rest == s[i..j] && s[j..] == [];
        }
      }
      slices := slices + [s[i..j]];
      i := j;
    }
    assert s[i..] == [];
  }

  /** `max_tokens` when not given. */
  const MaxTokensPerChunk: nat := 800

  /** What `chunk_by_tokens` returns for a positive size, over tokens: the slices, or one empty chunk. */
  function Chunks<T>(tokens: seq<T>, maxTokens: nat): seq<seq<T>>
    requires maxTokens > 0
  {
    var slices := Slices(tokens, maxTokens);
    if slices == [] then [[]] else slices
  }

  /**
   * `chunk_by_tokens` over the token sequence: an error for a zero size
   * (`range` refuses a zero step), a single empty chunk for a negative size,
   * otherwise the chunks.
   */
  method ChunkByTokens<T>(tokens: seq<T>, maxTokens: int) returns (r: Result<seq<seq<T>>>)
    ensures r.Err? <==> maxTokens == 0
    ensures maxTokens < 0 ==> r == Ok([[]])
    ensures maxTokens > 0 ==> r == Ok(Chunks(tokens, maxTokens))
  {
    if maxTokens == 0 {
      return Err("range() arg 3 must not be zero");
    }
    var chunks: seq<seq<T>> := [];
    if maxTokens > 0 {
      chunks := SliceLoop(tokens, maxTokens);
    }
    if chunks == [] {
      chunks := [[]];
    }
    return Ok(chunks);
  }

  /**
   * The chunks cover the tokens in order; each holds at most `maxTokens`,
   * all but the last exactly that many; an empty input gives exactly one
   * empty chunk and a non-empty one no empty chunk.
   */
  lemma ChunksProperties<T>(tokens: seq<T>, maxTokens: nat)
    requires maxTokens > 0
    ensures var c := Chunks(tokens, maxTokens);
      && Concat(c) == tokens
      && (tokens == [] <==> c == [[]])
      && (forall i :: 0 <= i < |c| ==> |c[i]| <= maxTokens)
      && (forall i :: 0 <= i < |c| - 1 ==> |c[i]| == maxTokens)
      && (tokens != [] ==> forall i :: 0 <= i < |c| ==> c[i] != [])
  {
    SlicesProperties(tokens, maxTokens);
    if tokens == [] {
      assert Concat<T>([[]]) == [] + Concat<T>([]);
    }
  }

  /** `BATCH_SIZE` when the environment does not set it. */
  const BatchSize: nat := 64

  /** One chunk row: product id, chunk number, chunk text and its embedding. */
  datatype ChunkRecord = ChunkRecord(productId: int, chunkNo: int, content: string, embedding: seq<real>)

  /** The first vector whose length is not `dim`, as the error `get_embeddings` raises, or the vectors. */
  function CheckDims(embs: seq<seq<real>>, dim: int): (r: Result<seq<seq<real>>>)
    ensures r.Ok? <==> forall i :: 0 <= i < |embs| ==> |embs[i]| == dim
    ensures r.Ok? ==> r.value == embs
    decreases |embs|
  {
    if embs == [] then Ok([])
    else
      var first := SearchProducts.CheckEmbedding(embs[0], dim);
      if first.Err? then Err(first.error)
      else
        match CheckDims(embs[1..], dim)
        case Err(e) => Err(e)
        case Ok(rest) => assert embs == [embs[0]] + embs[1..]; Ok([embs[0]] + rest)
  }

  /** The embeddings of all batches, in order, or the first dimension error. */
  function EmbedBatches(batches: seq<seq<string>>, embed: seq<string> -> seq<seq<real>>, dim: int): (r: Result<seq<seq<real>>>)
    decreases |batches|
  {
    if batches == [] then Ok([])
    else
      match CheckDims(embed(batches[0]), dim)
      case Err(e) => Err(e)
      case Ok(first) =>
        match EmbedBatches(batches[1..], embed, dim)
        case Err(e) => Err(e)
        case Ok(rest) => Ok(first + rest)
  }

  /** Every embedding of a successful run has the expected dimension. */
  lemma {:induction false} EmbedBatchesDims(batches: seq<seq<string>>, embed: seq<string> -> seq<seq<real>>, dim: int)
    ensures var r := EmbedBatches(batches, embed, dim);
      r.Ok? ==> forall i :: 0 <= i < |r.value| ==> |r.value[i]| == dim
    decreases |batches|
  {
    if batches != [] {
      EmbedBatchesDims(batches[1..], embed, dim);
      var r := EmbedBatches(batches, embed, dim);
      if r.Ok? {
        var first := CheckDims(embed(batches[0]), dim).value;
        var rest := EmbedBatches(batches[1..], embed, dim).value;
        assert r.value == first + rest;
        forall i | 0 <= i < |r.value| ensures |r.value[i]| == dim {
          if i < |first| {
            assert r.value[i] == first[i];
          } else {
            assert r.value[i] == rest[i - |first|];
          }
        }
      }
    }
  }

  /**
   * `insert_chunks` after the delete: embeds the texts in batches of
   * `BatchSize` (an error when a vector has the wrong dimension), then numbers
   * the records 1, 2, … in chunk order, pairing each text with its embedding
   * as `zip` does.
   */
  method InsertChunks(productId: int, chunkTexts: seq<string>, embed: seq<string> -> seq<seq<real>>, dim: int)
    returns (r: Result<seq<ChunkRecord>>)
    ensures var e := EmbedBatches(Slices(chunkTexts, BatchSize), embed, dim);
      && (r.Err? <==> e.Err?)
      && (r.Err? ==> r.error == e.error)
      && (r.Ok? ==> (|r.value| == (if |chunkTexts| < |e.value| then |chunkTexts| else |e.value|)
                  && forall i :: 0 <= i < |r.value| ==> r.value[i] == ChunkRecord(productId, i + 1, chunkTexts[i], e.value[i])))
  {
    var batches := SliceLoop(chunkTexts, BatchSize);
    var embeddings: seq<seq<real>> := [];
    var b := 0;
    MapOkEmpty(EmbedBatches(batches, embed, dim));
    while b < |batches|
      invariant 0 <= b <= |batches|
      invariant EmbedBatches(batches, embed, dim) == MapOk(EmbedBatches(batches[b..], embed, dim), embeddings)
    {
      var checked := CheckDims(embed(batches[b]), dim);
      ghost var rest := batches[b..];
      assert rest[0] == batches[b] && rest[1..] == batches[b + 1..];
      if checked.Err? {
        assert EmbedBatches(rest, embed, dim) == Err(checked.error);
        return Err(checked.error);
      }
      assert EmbedBatches(rest, embed, dim) == MapOk(EmbedBatches(batches[b + 1..], embed, dim), checked.value);
      MapOkAppend(EmbedBatches(batches[b + 1..], embed, dim), embeddings, checked.value);
      embeddings := embeddings + checked.value;
      b := b + 1;
    }
    assert batches[b..] == [];
    var n := if |chunkTexts| < |embeddings| then |chunkTexts| else |embeddings|;
    var records: seq<ChunkRecord> := [];
    var idx := 0;
    while idx < n
      invariant 0 <= idx <= n && |records| == idx
      invariant forall i :: 0 <= i < idx ==> records[i] == ChunkRecord(productId, i + 1, chunkTexts[i], embeddings[i])
    {
      records := records + [ChunkRecord(productId, idx + 1, chunkTexts[idx], embeddings[idx])];
      idx := idx + 1;
    }
    return Ok(records);
  }

  /** The embeddings gathered so far, in front of what the remaining batches give. */
  function MapOk(rest: Result<seq<seq<real>>>, done: seq<seq<real>>): Result<seq<seq<real>>> {
    match rest
    case Err(e) => Err(e)
    case Ok(v) => Ok(done + v)
  }

  /** Nothing gathered yet changes nothing. */
  lemma MapOkEmpty(r: Result<seq<seq<real>>>)
    ensures MapOk(r, []) == r
  {
    if r.Ok? {
      assert [] + r.value == r.value;
    }
  }

  /** Gathering `a`, then `b`, is gathering `a + b`. */
  lemma MapOkAppend(r: Result<seq<seq<real>>>, a: seq<seq<real>>, b: seq<seq<real>>)
    ensures MapOk(MapOk(r, b), a) == MapOk(r, a + b)
  {
    if r.Ok? {
      assert a + (b + r.value) == (a + b) + r.value;
    }
  }

  // ----- read_csv_safely -----

  /** Python truthiness of an optional string: present and non-empty. */
  predicate Given(o: Option<string>) {
    o.Some? && o.value != ""
  }

  /** `[e for e in items if e != x]`. */
  function Without(items: seq<string>, x: string): (r: seq<string>)
    ensures x !in r
    ensures forall y :: y != x ==> (y in r <==> y in items)
    decreases |items|
  {
    if items == [] then []
    else (if items[0] != x then [items[0]] else []) + Without(items[1..], x)
  }

  /** Filtering keeps the other items in their order: it only deletes the occurrence of `x`. */
  lemma {:induction false} WithoutOrder(items: seq<string>, x: string)
    requires forall i, j :: 0 <= i < j < |items| ==> items[i] != items[j]
    ensures x !in items ==> Without(items, x) == items
    ensures forall k :: 0 <= k < |items| && items[k] == x ==> Without(items, x) == items[..k] + items[k + 1..]
    decreases |items|
  {
    if items != [] {
      WithoutOrder(items[1..], x);
      forall k | 0 <= k < |items| && items[k] == x
        ensures Without(items, x) == items[..k] + items[k + 1..]
      {
        if k == 0 {
          assert x !in items[1..];
          assert items[..0] + items[1..] == items[1..];
        } else {
          assert items[1..][k - 1] == x;
          assert items[1..][..k - 1] + items[1..][k..] == items[1..k] + items[k + 1..];
          assert items[..k] + items[k + 1..] == [items[0]] + (items[1..k] + items[k + 1..]);
        }
      }
    }
  }

  /**
   * An override, when given, placed first in front of the defaults other
   * than it: it occurs once, every default other than it follows, and
   * nothing else does.
   */
  function Prioritize(o: Option<string>, defaults: seq<string>): (r: seq<string>)
    ensures !Given(o) ==> r == defaults
    ensures Given(o) ==> |r| > 0 && r[0] == o.value && o.value !in r[1..]
    ensures Given(o) ==> forall y :: y != o.value ==> (y in r <==> y in defaults)
  {
    if Given(o) then [o.value] + Without(defaults, o.value) else defaults
  }

  /** The separators tried by default, in order. */
  const DefaultSeps: seq<string> := [",", ";"]

  /** The encodings tried by default, in order. */
  const DefaultEncodings: seq<string> := ["utf-8", "utf-8-sig", "cp1252"]

  /** One reading attempt: separator, encoding, and whether bad lines are skipped (the python engine). */
  datatype Attempt = Attempt(sep: string, encoding: string, tolerant: bool)

  /** The standard-engine attempts for one encoding, one per separator. */
  function AttemptRow(seps: seq<string>, enc: string): (r: seq<Attempt>)
    ensures |r| == |seps|
    ensures forall i :: 0 <= i < |r| ==> r[i] == Attempt(seps[i], enc, false)
  {
    seq(|seps|, i requires 0 <= i < |seps| => Attempt(seps[i], enc, false))
  }

  /** The standard attempts: every separator for the first encoding, then for the next, … */
  function Standard(seps: seq<string>, encs: seq<string>): seq<Attempt>
    decreases |encs|
  {
    if encs == [] then [] else AttemptRow(seps, encs[0]) + Standard(seps, encs[1..])
  }

  /** The tolerant attempts: one per encoding, with the override separator or ";". */
  function Tolerant(sep: string, encs: seq<string>): (r: seq<Attempt>)
    ensures |r| == |encs|
    ensures forall i :: 0 <= i < |r| ==> r[i] == Attempt(sep, encs[i], true)
  {
    seq(|encs|, i requires 0 <= i < |encs| => Attempt(sep, encs[i], true))
  }

  /** `sep_override or ";"`. */
  function TolerantSep(sepOverride: Option<string>): string {
    if Given(sepOverride) then sepOverride.value else ";"
  }

  /** Every attempt `read_csv_safely` makes, in order, given the default separators and encodings. */
  function AttemptsFrom(sepOverride: Option<string>, encOverride: Option<string>,
                        defaultSeps: seq<string>, defaultEncodings: seq<string>): seq<Attempt> {
    var seps := Prioritize(sepOverride, defaultSeps);
    var encs := Prioritize(encOverride, defaultEncodings);
    Standard(seps, encs) + Tolerant(TolerantSep(sepOverride), encs)
  }

  /** Every attempt `read_csv_safely` makes, in the order it makes them. */
  function Attempts(sepOverride: Option<string>, encOverride: Option<string>): seq<Attempt> {
    AttemptsFrom(sepOverride, encOverride, DefaultSeps, DefaultEncodings)
  }

  /**
   * The first attempt uses the given overrides; all standard attempts come
   * before the tolerant ones, which use the override separator or ";".
   */
  lemma AttemptsOrder(sepOverride: Option<string>, encOverride: Option<string>)
    ensures var a := Attempts(sepOverride, encOverride);
      && |a| > 0
      && a[0].sep == (if Given(sepOverride) then sepOverride.value else ",")
      && a[0].encoding == (if Given(encOverride) then encOverride.value else "utf-8")
      && !a[0].tolerant
      && forall i, j :: 0 <= i < j < |a| && a[i].tolerant ==> a[j].tolerant && a[j].sep == TolerantSep(sepOverride)
  {
    AttemptsFromOrder(sepOverride, encOverride, DefaultSeps, DefaultEncodings);
  }

  /** `AttemptsOrder` for any non-empty lists of defaults. */
  lemma AttemptsFromOrder(sepOverride: Option<string>, encOverride: Option<string>,
                          defaultSeps: seq<string>, defaultEncodings: seq<string>)
    requires |defaultSeps| > 0 && |defaultEncodings| > 0
    ensures var a := AttemptsFrom(sepOverride, encOverride, defaultSeps, defaultEncodings);
      && |a| > 0
      && a[0].sep == (if Given(sepOverride) then sepOverride.value else defaultSeps[0])
      && a[0].encoding == (if Given(encOverride) then encOverride.value else defaultEncodings[0])
      && !a[0].tolerant
      && forall i, j :: 0 <= i < j < |a| && a[i].tolerant ==> a[j].tolerant && a[j].sep == TolerantSep(sepOverride)
  {
    var seps := Prioritize(sepOverride, defaultSeps);
    var encs := Prioritize(encOverride, defaultEncodings);
    assert |encs| > 0 && |seps| > 0;
    var std := Standard(seps, encs);
    var tol := Tolerant(TolerantSep(sepOverride), encs);
    assert std[..|seps|] == AttemptRow(seps, encs[0]);
    StandardNotTolerant(seps, encs);
    var a := std + tol;
    forall i, j | 0 <= i < j < |a| && a[i].tolerant ensures a[j].tolerant && a[j].sep == TolerantSep(sepOverride) {
      assert i >= |std|;
      assert a[j] == tol[j - |std|];
    }
  }

  /** No standard attempt is tolerant. */
  lemma {:induction false} StandardNotTolerant(seps: seq<string>, encs: seq<string>)
    ensures forall i :: 0 <= i < |Standard(seps, encs)| ==> !Standard(seps, encs)[i].tolerant
    decreases |encs|
  {
    if encs != [] {
      StandardNotTolerant(seps, encs[1..]);
      var row := AttemptRow(seps, encs[0]);
      var rest := Standard(seps, encs[1..]);
      var all: seq<Attempt> := row + rest;
      forall i | 0 <= i < |all| ensures !all[i].tolerant {
        if i >= |row| {
          assert all[i] == rest[i - |row|];
        }
      }
    }
  }

  /** The first attempt that `opens` accepts. */
  function FirstOpen(attempts: seq<Attempt>, opens: Attempt -> bool): (r: Option<Attempt>)
    decreases |attempts|
  {
    if attempts == [] then None
    else if opens(attempts[0]) then Some(attempts[0])
    else FirstOpen(attempts[1..], opens)
  }

  /** The first success is an attempt that opens, every earlier one fails, and there is none only when all fail. */
  lemma {:induction false} FirstOpenProperties(attempts: seq<Attempt>, opens: Attempt -> bool)
    ensures var r := FirstOpen(attempts, opens);
      && (r.None? <==> forall i :: 0 <= i < |attempts| ==> !opens(attempts[i]))
      && (r.Some? ==> exists k :: 0 <= k < |attempts| && attempts[k] == r.value && opens(r.value)
                                 && forall i :: 0 <= i < k ==> !opens(attempts[i]))
    decreases |attempts|
  {
    if attempts != [] && !opens(attempts[0]) {
      var tail := attempts[1..];
      FirstOpenProperties(tail, opens);
      var r := FirstOpen(attempts, opens);
      if r.Some? {
        var k :| 0 <= k < |tail| && tail[k] == r.value && opens(r.value) && forall i :: 0 <= i < k ==> !opens(tail[i]);
        assert attempts[k + 1] == r.value;
        forall i | 0 <= i < k + 1 ensures !opens(attempts[i]) {
          if i > 0 {
            assert attempts[i] == tail[i - 1];
          }
        }
      } else {
        forall i | 0 <= i < |attempts| ensures !opens(attempts[i]) {
          if i > 0 {
            assert attempts[i] == tail[i - 1];
          }
        }
      }
    } else if attempts != [] {
      assert attempts[0] == FirstOpen(attempts, opens).value;
    }
  }

  /** The first success of `a + b` is that of `a`, or else that of `b`. */
  lemma {:induction false} FirstOpenAppend(a: seq<Attempt>, b: seq<Attempt>, opens: Attempt -> bool)
    ensures FirstOpen(a + b, opens) == if FirstOpen(a, opens).Some? then FirstOpen(a, opens) else FirstOpen(b, opens)
    decreases |a|
  {
    if a == [] {
      assert a + b == b;
    } else {
      assert (a + b)[1..] == a[1..] + b;
      FirstOpenAppend(a[1..], b, opens);
    }
  }

  /** The message `read_csv_safely` exits with when every attempt fails. */
  const ReadFailure: string := "Não foi possível ler o CSV com as estratégias de fallback. Verifique separadores, aspas e encoding."

  /** The inner loop of the standard attempts: every separator with one encoding. */
  method TrySeps(seps: seq<string>, enc: string, opens: Attempt -> bool) returns (found: Option<Attempt>)
    ensures found == FirstOpen(AttemptRow(seps, enc), opens)
  {
    var a := 0;
    while a < |seps|
      invariant 0 <= a <= |seps|
      invariant FirstOpen(AttemptRow(seps, enc), opens) == FirstOpen(AttemptRow(seps[a..], enc), opens)
    {
      var at := Attempt(seps[a], enc, false);
      assert AttemptRow(seps[a..], enc) == [at] + AttemptRow(seps[a + 1..], enc);
      if opens(at) {
        return Some(at);
      }
      a := a + 1;
    }
    assert AttemptRow(seps[a..], enc) == [];
    return None;
  }

  /** The standard attempts: for each encoding in turn, every separator. */
  method TryStandard(seps: seq<string>, encs: seq<string>, opens: Attempt -> bool) returns (found: Option<Attempt>)
    ensures found == FirstOpen(Standard(seps, encs), opens)
  {
    var e := 0;
    while e < |encs|
      invariant 0 <= e <= |encs|
      invariant FirstOpen(Standard(seps, encs), opens) == FirstOpen(Standard(seps, encs[e..]), opens)
    {
      assert encs[e..][0] == encs[e] && encs[e..][1..] == encs[e + 1..];
      FirstOpenAppend(AttemptRow(seps, encs[e]), Standard(seps, encs[e + 1..]), opens);
      found := TrySeps(seps, encs[e], opens);
      if found.Some? {
        return;
      }
      e := e + 1;
    }
    return None;
  }

  /** The tolerant attempts, one per encoding. */
  method TryTolerant(sep: string, encs: seq<string>, opens: Attempt -> bool) returns (found: Option<Attempt>)
    ensures found == FirstOpen(Tolerant(sep, encs), opens)
  {
    ghost var tol := Tolerant(sep, encs);
    var e := 0;
    while e < |encs|
      invariant 0 <= e <= |encs|
      invariant FirstOpen(tol, opens) == FirstOpen(tol[e..], opens)
    {
      var at := Attempt(sep, encs[e], true);
      assert tol[e..][0] == at && tol[e..][1..] == tol[e + 1..];
      if opens(at) {
        return Some(at);
      }
      e := e + 1;
    }
    return None;
  }

  /**
   * `read_csv_safely`, without the reading itself: `opens` says whether
   * pandas accepts an attempt. Tries the standard engine for each encoding
   * and separator, then the tolerant engine for each encoding, and returns
   * the first attempt that works, or the exit message.
   */
  method ReadCsvSafely(sepOverride: Option<string>, encOverride: Option<string>, opens: Attempt -> bool)
    returns (r: Result<Attempt>)
    ensures var f := FirstOpen(Attempts(sepOverride, encOverride), opens);
      && (f.Some? ==> r == Ok(f.value))
      && (f.None? ==> r == Err(ReadFailure))
  {
    var seps := Prioritize(sepOverride, DefaultSeps);
    var encs := Prioritize(encOverride, DefaultEncodings);
    var tolSep := TolerantSep(sepOverride);
    FirstOpenAppend(Standard(seps, encs), Tolerant(tolSep, encs), opens);
    var found := TryStandard(seps, encs, opens);
    if found.Some? {
      return Ok(found.value);
    }
    found := TryTolerant(tolSep, encs, opens);
    if found.Some? {
      return Ok(found.value);
    }
    return Err(ReadFailure);
  }

  // ----- diagnose_csv -----

  /** One reported line: line number, columns found, columns expected, and the start of the line. */
  datatype Problem = Problem(lineNo: int, found: int, expected: int, snippet: string)

  /** `raw_lines[i].rstrip()[:160]`. */
  function Snippet(line: string): (r: string)
    ensures |r| == if |RStrip(line)| < 160 then |RStrip(line)| else 160
    ensures r == RStrip(line)[..|r|]
  {
    var t := RStrip(line);
    if |t| <= 160 then t else t[..160]
  }

  /** The entry a failed diagnosis ends with, here the index error of a row past the last raw line. */
  const IndexFailure: Problem := Problem(0, 0, 0, "Falha ao diagnosticar: list index out of range")

  /** True when row `n` does not have the expected number of columns. */
  predicate Mismatch(rows: seq<seq<string>>, expected: int, n: int) {
    0 <= n < |rows| && |rows[n]| != expected
  }

  /** The entry for row `n`: line `n + 1`, its count, the expected count and its snippet. */
  function ProblemAt(rows: seq<seq<string>>, raw: seq<string>, expected: int, n: nat): Problem
    requires n < |rows| && n < |raw|
  {
    Problem(n + 1, |rows[n]|, expected, Snippet(raw[n]))
  }

  /**
   * The rows from index `i` on (line `i + 1`) whose column count is not
   * `expected`; a mismatched row past the raw lines ends the scan with the
   * failure entry.
   */
  function Scan(rows: seq<seq<string>>, raw: seq<string>, expected: int, i: nat): seq<Problem>
    requires i <= |rows|
    decreases |rows| - i
  {
    if i == |rows| then []
    else if Mismatch(rows, expected, i) then
      if i < |raw| then [ProblemAt(rows, raw, expected, i)] + Scan(rows, raw, expected, i + 1)
      else [IndexFailure]
    else Scan(rows, raw, expected, i + 1)
  }

  /** The single entry reported for a file without even a header line. */
  const EmptyFile: Problem := Problem(1, 0, 0, "<arquivo vazio>")

  /** What `diagnose_csv` returns for the rows the CSV reader produced from the raw lines. */
  function Diagnosis(rows: seq<seq<string>>, raw: seq<string>): seq<Problem> {
    if rows == [] then [EmptyFile] else Scan(rows, raw, |rows[0]|, 1)
  }

  /** No entry of the scan from row `i >= 1` is on line 1: each is after line `i` or is the failure entry. */
  lemma {:induction false} ScanLines(rows: seq<seq<string>>, raw: seq<string>, expected: int, i: nat)
    requires 1 <= i <= |rows|
    ensures forall p :: p in Scan(rows, raw, expected, i) ==> p == IndexFailure || i < p.lineNo
    decreases |rows| - i
  {
    if i < |rows| {
      ScanLines(rows, raw, expected, i + 1);
    }
  }

  /** The empty-file entry alone is reported exactly when the reader yields no header row. */
  lemma DiagnosisEmpty(rows: seq<seq<string>>, raw: seq<string>)
    ensures Diagnosis(rows, raw) == [EmptyFile] <==> rows == []
  {
    if rows != [] {
      ScanLines(rows, raw, |rows[0]|, 1);
      assert EmptyFile !in Diagnosis(rows, raw);
    }
  }

  /**
   * `diagnose_csv`, after the file has been read and split: compares every
   * row's column count with the header's, counting lines from 2.
   */
  method DiagnoseCsv(rows: seq<seq<string>>, raw: seq<string>) returns (problems: seq<Problem>)
    ensures problems == Diagnosis(rows, raw)
  {
    if rows == [] {
      return [EmptyFile];
    }
    var expected := |rows[0]|;
    problems := [];
    var lineNo := 2;
    while lineNo <= |rows|
      invariant 2 <= lineNo <= |rows| + 1
      invariant problems + Scan(rows, raw, expected, lineNo - 1) == Diagnosis(rows, raw)
    {
      var row := rows[lineNo - 1];
      if |row| != expected {
        if lineNo - 1 >= |raw| {
          return problems + [IndexFailure];
        }
        problems := problems + [Problem(lineNo, |row|, expected, Snippet(raw[lineNo - 1]))];
      }
      lineNo := lineNo + 1;
    }
  }

  /**
   * With a raw line for every row, the scan from row `i` reports exactly the
   * mismatched rows from `i` on, each with its own entry.
   */
  lemma {:induction false} ScanMembers(rows: seq<seq<string>>, raw: seq<string>, expected: int, i: nat)
    requires 1 <= i <= |rows| <= |raw|
    ensures forall p :: p in Scan(rows, raw, expected, i) <==>
      exists n :: i <= n < |rows| && Mismatch(rows, expected, n) && p == ProblemAt(rows, raw, expected, n)
    decreases |rows| - i
  {
    if i < |rows| {
      ScanMembers(rows, raw, expected, i + 1);
      var rest := Scan(rows, raw, expected, i + 1);
      forall p ensures p in Scan(rows, raw, expected, i) <==>
        exists n :: i <= n < |rows| && Mismatch(rows, expected, n) && p == ProblemAt(rows, raw, expected, n)
      {
        if exists n :: i <= n < |rows| && Mismatch(rows, expected, n) && p == ProblemAt(rows, raw, expected, n) {
          var n :| i <= n < |rows| && Mismatch(rows, expected, n) && p == ProblemAt(rows, raw, expected, n);
          if n > i {
            assert p in rest;
          }
        }
      }
    }
  }

  /** With a raw line for every row, the entries of the scan from row `i` are after line `i`, in increasing line order. */
  lemma {:induction false} ScanOrdered(rows: seq<seq<string>>, raw: seq<string>, expected: int, i: nat)
    requires 1 <= i <= |rows| <= |raw|
    ensures forall a :: 0 <= a < |Scan(rows, raw, expected, i)| ==> i < Scan(rows, raw, expected, i)[a].lineNo
    ensures forall a, b :: 0 <= a < b < |Scan(rows, raw, expected, i)| ==>
      Scan(rows, raw, expected, i)[a].lineNo < Scan(rows, raw, expected, i)[b].lineNo
    decreases |rows| - i
  {
    if i < |rows| {
      ScanOrdered(rows, raw, expected, i + 1);
      var rest := Scan(rows, raw, expected, i + 1);
      if Mismatch(rows, expected, i) {
        var d := [ProblemAt(rows, raw, expected, i)] + rest;
        assert Scan(rows, raw, expected, i) == d;
        assert d[0].lineNo == i + 1;
        forall a | 0 <= a < |d| ensures i < d[a].lineNo {
          if a > 0 {
            assert d[a] == rest[a - 1];
          }
        }
        forall a, b | 0 <= a < b < |d| ensures d[a].lineNo < d[b].lineNo {
          assert d[b] == rest[b - 1];
          if a > 0 {
            assert d[a] == rest[a - 1];
          }
        }
      }
    }
  }

  /**
   * A file with a header and a raw line for every row: exactly the rows
   * whose column count differs from the header's are reported, each with
   * its line number (from 2), its count and the header's, in line order.
   */
  lemma DiagnosisExact(rows: seq<seq<string>>, raw: seq<string>)
    requires 0 < |rows| <= |raw|
    ensures var d := Diagnosis(rows, raw);
      && (forall p :: p in d <==> exists n :: 1 <= n < |rows| && Mismatch(rows, |rows[0]|, n)
                                      && p == ProblemAt(rows, raw, |rows[0]|, n))
      && (forall a, b :: 0 <= a < b < |d| ==> d[a].lineNo < d[b].lineNo)
      && (forall a :: 0 <= a < |d| ==> 2 <= d[a].lineNo)
  {
    assert Diagnosis(rows, raw) == Scan(rows, raw, |rows[0]|, 1);
    ScanMembers(rows, raw, |rows[0]|, 1);
    ScanOrdered(rows, raw, |rows[0]|, 1);
  }

  // ----- The main loop -----

  /** The columns the script guarantees, added empty when the file lacks them. */
  const ExpectedCols: seq<string> := ["codigo_produto", "descricao", "descricao_tecnica",
                                      "codigo_barras", "tipo", "um", "qtde_cx", "estoque"]

  /** `[c for c in ["codigo_produto","descricao"] if c not in df.columns]`. */
  function MissingRequired(columns: seq<string>): (r: seq<string>)
    ensures forall c :: c in r <==> (c == "codigo_produto" || c == "descricao") && c !in columns
  {
    (if "codigo_produto" !in columns then ["codigo_produto"] else [])
    + (if "descricao" !in columns then ["descricao"] else [])
  }

  /** The expected columns that `columns` lacks, in their order. */
  function Absent(expected: seq<string>, columns: seq<string>): (r: seq<string>)
    ensures forall c :: c in r <==> c in expected && c !in columns
    decreases |expected|
  {
    if expected == [] then []
    else (if expected[0] !in columns then [expected[0]] else []) + Absent(expected[1..], columns)
  }

  /** The columns with the missing ones of `expected` appended. */
  function PaddedWith(columns: seq<string>, expected: seq<string>): (r: seq<string>)
    ensures |r| >= |columns| && r[..|columns|] == columns
    ensures forall c :: c in r <==> c in columns || c in expected
  {
    columns + Absent(expected, columns)
  }

  /** The columns after the loop that adds every missing expected column. */
  function Padded(columns: seq<string>): seq<string> {
    PaddedWith(columns, ExpectedCols)
  }

  /** Python's `repr` of a list of strings: `['a', 'b']`. */
  function ListRepr(items: seq<string>): string {
    "[" + Join(", ", seq(|items|, i requires 0 <= i < |items| => "'" + items[i] + "'")) + "]"
  }

  /** The message the script exits with when a required column is missing. */
  function MissingMessage(missing: seq<string>): string {
    "CSV faltando colunas obrigatórias: " + ListRepr(missing)
  }

  /** `df.head(limit)` for a positive limit; every row otherwise. */
  function Limited(rows: seq<Row>, limit: Option<int>): (r: seq<Row>)
    ensures limit.Some? && 0 < limit.value < |rows| ==> r == rows[..limit.value]
    ensures limit.None? || limit.value <= 0 || limit.value >= |rows| ==> r == rows
  {
    if limit.Some? && 0 < limit.value < |rows| then rows[..limit.value] else rows
  }

  /** The price columns left out of the raw dump. */
  predicate PriceColumn(k: string) {
    k == "preco" || k == "preco_promocional"
  }

  /** `[f(x) for x in s if keep(x)]`. */
  function FilterMap<A, B>(s: seq<A>, keep: A -> bool, f: A -> B): seq<B>
    decreases |s|
  {
    if s == [] then []
    else
      var init := FilterMap(s[..|s| - 1], keep, f);
      if keep(s[|s| - 1]) then init + [f(s[|s| - 1])] else init
  }

  /** Every result comes from a kept element, and every kept element gives its result. */
  lemma {:induction false} FilterMapMembers<A, B>(s: seq<A>, keep: A -> bool, f: A -> B)
    ensures forall y :: y in FilterMap(s, keep, f) ==> exists i :: 0 <= i < |s| && keep(s[i]) && y == f(s[i])
    ensures forall i :: 0 <= i < |s| && keep(s[i]) ==> f(s[i]) in FilterMap(s, keep, f)
    decreases |s|
  {
    if s != [] {
      var init := s[..|s| - 1];
      FilterMapMembers(init, keep, f);
      var r := FilterMap(s, keep, f);
      var prev := FilterMap(init, keep, f);
      forall y | y in r ensures exists i :: 0 <= i < |s| && keep(s[i]) && y == f(s[i]) {
        if y in prev {
          var i :| 0 <= i < |init| && keep(init[i]) && y == f(init[i]);
          assert s[i] == init[i];
        } else {
          assert keep(s[|s| - 1]) && y == f(s[|s| - 1]);
        }
      }
      forall i | 0 <= i < |s| && keep(s[i]) ensures f(s[i]) in r {
        if i < |init| {
          assert s[i] == init[i];
        }
      }
    }
  }

  /** True for the columns kept in the raw dump. */
  predicate NotPrice(k: string) {
    !PriceColumn(k)
  }

  /** The raw dump: every column but the price ones, in order, with its normalised value. */
  function Raw(columns: seq<string>, r: Row): seq<(string, string)> {
    FilterMap(columns, NotPrice, k => (k, Field(r, k)))
  }

  /**
   * The raw dump holds no price column, only columns of the table with their
   * normalised values, and every other column appears in it.
   */
  lemma RawEntries(columns: seq<string>, r: Row)
    ensures forall e :: e in Raw(columns, r) ==> !PriceColumn(e.0) && e.0 in columns && e.1 == Field(r, e.0)
    ensures forall k :: k in columns && !PriceColumn(k) ==> (k, Field(r, k)) in Raw(columns, r)
  {
    FilterMapMembers(columns, NotPrice, k => (k, Field(r, k)));
  }

  /** The product row the script upserts, with the text it embeds. */
  datatype Product = Product(
    sku: string, name: string, description: string, codigoBarras: string,
    tipo: string, um: string, qtdeCx: string, estoque: Option<string>,
    raw: seq<(string, string)>, text: string)

  /** True when the row's stripped SKU is not blank. */
  predicate HasSku(r: Row) {
    Field(r, "codigo_produto") != ""
  }

  /** The product built from one row (the body of the main loop after the SKU test). */
  function ProductOf(columns: seq<string>, r: Row, parses: string -> bool): Product {
    Product(Field(r, "codigo_produto"), Field(r, "descricao"), Field(r, "descricao_tecnica"),
            Field(r, "codigo_barras"), Field(r, "tipo"), Field(r, "um"), Field(r, "qtde_cx"),
            ParseDecimalBr(Get(r, "estoque"), parses), Raw(columns, r), BuildProductText(r))
  }

  /** The products of the rows that have a SKU, in row order. */
  function Products(columns: seq<string>, rows: seq<Row>, parses: string -> bool): seq<Product> {
    FilterMap(rows, HasSku, r => ProductOf(columns, r, parses))
  }

  /**
   * The main loop of the script up to the upsert: checks the required
   * columns, pads the expected ones, applies the limit and builds one
   * product per row that has a SKU, skipping the others.
   */
  method Ingest(columns: seq<string>, rows: seq<Row>, limit: Option<int>, parses: string -> bool)
    returns (r: Result<seq<Product>>)
    ensures r.Err? <==> MissingRequired(columns) != []
    ensures r.Err? ==> r.error == MissingMessage(MissingRequired(columns))
    ensures r.Ok? ==> r.value == Products(Padded(columns), Limited(rows, limit), parses)
  {
    var missing := MissingRequired(columns);
    if missing != [] {
      return Err(MissingMessage(missing));
    }
    var cols := Padded(columns);
    var products := KeepRows(Limited(rows, limit), HasSku, r => ProductOf(cols, r, parses));
    return Ok(products);
  }

  /**
   * The loop over the rows: skips those that `keep` rejects (the rows
   * without a SKU) and appends `build` of each other one (its product).
   */
  method KeepRows<R, P>(rows: seq<R>, keep: R -> bool, build: R -> P) returns (products: seq<P>)
    ensures products == FilterMap(rows, keep, build)
  {
    products := [];
    var i := 0;
    while i < |rows|
      invariant 0 <= i <= |rows|
      invariant products == FilterMap(rows[..i], keep, build)
    {
      assert rows[..i + 1][..i] == rows[..i];
      var row := rows[i];
      if !keep(row) {
        i := i + 1;
        continue;
      }
      products := products + [build(row)];
      i := i + 1;
    }
    assert rows[..i] == rows;
  }

  /**
   * Every product comes from a row with a SKU, and every row with a SKU
   * gives its product: the rows without one, and only those, are skipped.
   */
  lemma ProductsRows(columns: seq<string>, rows: seq<Row>, parses: string -> bool)
    ensures var ps := Products(columns, rows, parses);
      && (forall p :: p in ps ==> exists i :: 0 <= i < |rows| && HasSku(rows[i]) && p == ProductOf(columns, rows[i], parses))
      && (forall i :: 0 <= i < |rows| && HasSku(rows[i]) ==> ProductOf(columns, rows[i], parses) in ps)
  {
    FilterMapMembers(rows, HasSku, r => ProductOf(columns, r, parses));
  }

  /**
   * Every product has a non-blank, stripped SKU, and its raw dump holds no
   * price column.
   */
  lemma ProductsClean(columns: seq<string>, rows: seq<Row>, parses: string -> bool)
    ensures forall p :: p in Products(columns, rows, parses) ==>
      p.sku != "" && Trimmed(p.sku) && forall e :: e in p.raw ==> !PriceColumn(e.0)
  {
    ProductsRows(columns, rows, parses);
    forall p | p in Products(columns, rows, parses)
      ensures p.sku != "" && Trimmed(p.sku) && forall e :: e in p.raw ==> !PriceColumn(e.0)
    {
      var i :| 0 <= i < |rows| && HasSku(rows[i]) && p == ProductOf(columns, rows[i], parses);
      RawEntries(columns, rows[i]);
    }
  }
}
