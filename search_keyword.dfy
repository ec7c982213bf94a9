/**
 * Construction of the keyword channel's query in `search_products`: the
 * whitespace tokens of the query, one `LIKE` pattern per token, one
 * name/description clause per pattern, and the parameter list handed to the
 * database together with the SQL text.
 */
module KeywordQuery {
  import opened PyText

  /** A parameter bound to one `%s` placeholder of the SQL text. */
  datatype Param = Text(text: string) | Limit(n: int)

  /** The query's whitespace tokens, or the query itself (unstripped) when it is blank. */
  function Tokens(q: string): (r: seq<string>)
    ensures r != []
    ensures Strip(q) == [] ==> r == [q]
    ensures Strip(q) != [] ==> forall i :: 0 <= i < |r| ==> r[i] != [] && NoSpace(r[i])
  {
    // the source re-filters the tokens on non-emptiness, which `Split` already guarantees
    var ts := Split(Strip(q));
    SplitEmptyIffBlank(Strip(q));
    SplitWords(Strip(q));
    StripIdempotent(q);
    if ts == [] then [q] else ts
  }

  /**
   * A non-blank query is its tokens with white space between them (non-empty
   * between two tokens) and around them; as the tokens are non-empty and free
   * of white space, they are exactly its maximal runs of non-white-space
   * characters, in order.
   */
  lemma TokensWeave(q: string)
    requires Strip(q) != []
    ensures exists gaps :: Separators(gaps, Tokens(q)) && Weave(gaps, Tokens(q)) == q
  {
    var ws := Split(Strip(q));
    StripIdempotent(q);
    SplitEmptyIffBlank(Strip(q));
    assert Tokens(q) == ws;
    StripSplitWeave(q);
    var gaps :| Separators(gaps, ws) && Weave(gaps, ws) == q;
  }

  /** `%token%`: matches any text containing the token. */
  function Pattern(t: string): string {
    "%" + t + "%"
  }

  /** A piece of SQL text: literal text, or one `%s` placeholder bound to a parameter. */
  datatype Piece = Lit(text: string) | Hole

  /** Number of placeholders in a piece list. */
  function Holes(sql: seq<Piece>): nat {
    multiset(sql)[Hole]
  }

  /** One pattern per token, in token order. */
  function Patterns(tokens: seq<string>): (r: seq<string>)
    ensures |r| == |tokens| && forall i :: 0 <= i < |tokens| ==> r[i] == Pattern(tokens[i])
  {
    seq(|tokens|, i requires 0 <= i < |tokens| => Pattern(tokens[i]))
  }

  /** The per-token clause: the pattern against the name or the description. */
  const Clause: seq<Piece> := [Lit("(name ILIKE "), Hole, Lit(" OR description ILIKE "), Hole, Lit(")")]

  /** `sep.join(parts)` on piece lists. */
  function JoinPieces(sep: seq<Piece>, parts: seq<seq<Piece>>): seq<Piece> {
    if |parts| == 0 then []
    else if |parts| == 1 then parts[0]
    else parts[0] + sep + JoinPieces(sep, parts[1..])
  }

  /** One clause in parentheses, as the source wraps each before joining. */
  const Wrapped: seq<Piece> := [Lit("(")] + Clause + [Lit(")")]

  /** The `WHERE` condition for `n` tokens: `n` wrapped clauses joined by `OR`. */
  function Disjunction(n: nat): (r: seq<Piece>)
    ensures n > 0 ==> r != []
  {
    if n == 0 then [] else if n == 1 then Wrapped else Wrapped + [Lit(" OR ")] + Disjunction(n - 1)
  }

  /** Joining `n` wrapped clauses with `OR` gives the `n`-token condition. */
  lemma {:induction false} JoinWrapped(n: nat)
    ensures JoinPieces([Lit(" OR ")], seq(n, _ => Wrapped)) == Disjunction(n)
  {
    if n > 1 {
      assert seq(n, _ => Wrapped)[1..] == seq(n - 1, _ => Wrapped);
      JoinWrapped(n - 1);
    }
  }

  /** The `WHERE` condition for `n` tokens binds two parameters per token. */
  lemma {:induction false} DisjunctionHoles(n: nat)
    ensures Holes(Disjunction(n)) == 2 * n
  {
    assert Holes(Wrapped) == 2;
    if n > 1 {
      DisjunctionHoles(n - 1);
    }
  }

  /** The test that scores a name match (2) or a description match (1), with or without `unaccent`. */
  function MatchTest(unaccent: bool, column: string): (r: seq<Piece>)
    ensures Holes(r) == 1
  {
    if unaccent then [Lit("unaccent(" + column + ") ILIKE unaccent("), Hole, Lit(")")]
    else [Lit(column + " ILIKE "), Hole]
  }

  /**
   * The keyword statement, with or without `unaccent` (the source tries the
   * accent-insensitive form first and falls back to plain `ILIKE`).
   */
  function KeywordSql(unaccent: bool, whereSql: seq<Piece>): (r: seq<Piece>)
    ensures Holes(r) == Holes(whereSql) + 3
  {
    var head := KeywordHead(unaccent);
    var tail := [Lit(" ORDER BY score_kw DESC, name ASC LIMIT "), Hole, Lit(";")];
    assert Holes(tail) == 1;
    assert multiset(head + whereSql + tail) == multiset(head) + multiset(whereSql) + multiset(tail);
    head + whereSql + tail
  }

  /** The statement up to `WHERE`: the scored selection, binding the name and description patterns. */
  function KeywordHead(unaccent: bool): (r: seq<Piece>)
    ensures Holes(r) == 2
  {
    var name := MatchTest(unaccent, "name");
    var description := MatchTest(unaccent, "description");
    var r := [Lit("SELECT id AS product_id, sku, name, codigo_barras, ((CASE WHEN ")] + name
      + [Lit(" THEN 2 ELSE 0 END) + (CASE WHEN ")] + description
      + [Lit(" THEN 1 ELSE 0 END))::float AS score_kw FROM rag.products WHERE ")];
    assert multiset(r) == multiset([Lit("SELECT id AS product_id, sku, name, codigo_barras, ((CASE WHEN ")])
      + multiset(name) + multiset([Lit(" THEN 2 ELSE 0 END) + (CASE WHEN ")]) + multiset(description)
      + multiset([Lit(" THEN 1 ELSE 0 END))::float AS score_kw FROM rag.products WHERE ")]);
    r
  }

  /** Each pattern twice, once for the name test and once for the description test. */
  function Doubled(patterns: seq<string>): (r: seq<Param>)
    ensures |r| == 2 * |patterns|
  {
    if patterns == [] then []
    else Doubled(patterns[..|patterns| - 1]) + [Text(patterns[|patterns| - 1]), Text(patterns[|patterns| - 1])]
  }

  /** Positions `2j` and `2j + 1` of the doubled list both hold pattern `j`. */
  lemma {:induction false} DoubledAt(patterns: seq<string>, j: nat)
    requires j < |patterns|
    ensures Doubled(patterns)[2 * j] == Text(patterns[j]) && Doubled(patterns)[2 * j + 1] == Text(patterns[j])
  {
    if j < |patterns| - 1 {
      var init := patterns[..|patterns| - 1];
      DoubledAt(init, j);
      assert Doubled(patterns)[..2 * |init|] == Doubled(init);
    }
  }

  /**
   * The loop over the patterns: one clause per pattern, and the pattern twice
   * in the parameter list.
   */
  method ClausesAndParams(patterns: seq<string>) returns (clauses: seq<seq<Piece>>, params: seq<Param>)
    ensures |clauses| == |patterns| && forall j :: 0 <= j < |clauses| ==> clauses[j] == Clause
    ensures params == Doubled(patterns)
  {
    clauses, params := [], [];
    for i := 0 to |patterns|
      invariant |clauses| == i && forall j :: 0 <= j < i ==> clauses[j] == Clause
      invariant params == Doubled(patterns[..i])
    {
      clauses := clauses + [Clause];
      params := params + [Text(patterns[i]), Text(patterns[i])];
      assert patterns[..i + 1][..i] == patterns[..i];
    }
    assert patterns[..|patterns|] == patterns;
  }

  /** The `WHERE` condition built from the clause list: the wrapped clauses joined by `OR`, or `TRUE` for none. */
  method JoinClauses(clauses: seq<seq<Piece>>) returns (whereSql: seq<Piece>)
    requires forall j :: 0 <= j < |clauses| ==> clauses[j] == Clause
    ensures whereSql == if clauses == [] then [Lit("TRUE")] else Disjunction(|clauses|)
  {
    var wrapped := seq(|clauses|, j requires 0 <= j < |clauses| => [Lit("(")] + clauses[j] + [Lit(")")]);
    assert wrapped == seq(|clauses|, _ => Wrapped);
    JoinWrapped(|clauses|);
    whereSql := JoinPieces([Lit(" OR ")], wrapped);
    if whereSql == [] {
      whereSql := [Lit("TRUE")];
    }
  }

  /**
   * Builds the tokens, the `WHERE` condition and the executed parameter list:
   * the whole-query pattern twice (name and description scoring), each token's
   * pattern twice, then the row limit.
   */
  method BuildKeywordQuery(q: string, kKw: int) returns (tokens: seq<string>, whereSql: seq<Piece>, execParams: seq<Param>)
    ensures tokens == Tokens(q)
    ensures whereSql == Disjunction(|tokens|)
    ensures |execParams| == 2 * |tokens| + 3
    ensures execParams[0] == Text(Pattern(q)) && execParams[1] == Text(Pattern(q))
    ensures execParams[2..|execParams| - 1] == Doubled(Patterns(tokens))
    ensures execParams[|execParams| - 1] == Limit(kKw)
    ensures forall unaccent: bool :: Holes(KeywordSql(unaccent, whereSql)) == |execParams|
  {
    tokens := Tokens(q);
    var patterns := Patterns(tokens);
    var clauses, params := ClausesAndParams(patterns);
    whereSql := JoinClauses(clauses);
    DisjunctionHoles(|tokens|);
    var whole := Text(Pattern(q));
    execParams := [whole, whole] + params + [Limit(kKw)];
    assert execParams[2..2 + |params|] == params;
  }
}
