/**
 * The fragment of Python's `str` type that the modelled code relies on:
 * `isspace`, `strip`/`lstrip`/`rstrip`, argument-less `split`, `join`,
 * single-character `replace` and the lower-casing used for keyword comparison.
 */
module PyText {

  /**
   * The characters for which Python's `str.isspace()` holds: the white-space
   * and separator characters of Unicode.
   */
  const SpaceChars: string := " \t\n\U{B}\U{C}\r\U{1C}\U{1D}\U{1E}\U{1F}\U{85}\U{A0}\U{1680}"
    + "\U{2000}\U{2001}\U{2002}\U{2003}\U{2004}\U{2005}\U{2006}\U{2007}\U{2008}\U{2009}\U{200A}"
    + "\U{2028}\U{2029}\U{202F}\U{205F}\U{3000}"

  /** True when `c` occurs in `cs`. */
  predicate Among(c: char, cs: string)
    decreases |cs|
  {
    cs != [] && (cs[0] == c || Among(c, cs[1..]))
  }

  /** Python's `str.isspace()` for one character. */
  predicate IsSpace(c: char) {
    Among(c, SpaceChars)
  }

  /** `Among` is sequence membership. */
  lemma {:induction false} AmongIn(c: char, cs: string)
    ensures Among(c, cs) <==> c in cs
    decreases |cs|
  {
    if cs != [] {
      AmongIn(c, cs[1..]);
      assert cs == [cs[0]] + cs[1..];
    }
  }

  /** No visible ASCII character is white space. */
  lemma VisibleAsciiNotSpace(c: char)
    requires '!' <= c <= '~'
    ensures !IsSpace(c)
  {
    AmongIn(c, SpaceChars);
    forall i | 0 <= i < |SpaceChars| ensures SpaceChars[i] != c {
      assert SpaceChars[i] <= ' ' || SpaceChars[i] >= '\U{85}';
    }
  }

  /** True when no character of `s` is white space. */
  predicate NoSpace(s: string) {
    forall i :: 0 <= i < |s| ==> !IsSpace(s[i])
  }

  /** True when `s` neither starts nor ends with white space. */
  predicate Trimmed(s: string) {
    s == [] || (!IsSpace(s[0]) && !IsSpace(s[|s| - 1]))
  }

  /** `s.lstrip()`: drops the leading white space. */
  function LStrip(s: string): (r: string)
    ensures |r| <= |s| && r == s[|s| - |r|..]
    ensures r == [] || !IsSpace(r[0])
    ensures forall i :: 0 <= i < |s| - |r| ==> IsSpace(s[i])
  {
    if s != [] && IsSpace(s[0]) then LStrip(s[1..]) else s
  }

  /** `s.rstrip()`: drops the trailing white space. */
  function RStrip(s: string): (r: string)
    ensures |r| <= |s| && r == s[..|r|]
    ensures r == [] || !IsSpace(r[|r| - 1])
    ensures forall i :: |r| <= i < |s| ==> IsSpace(s[i])
  {
    if s != [] && IsSpace(s[|s| - 1]) then RStrip(s[..|s| - 1]) else s
  }

  /** `s.strip()`: drops white space at both ends. */
  function Strip(s: string): (r: string)
    ensures Trimmed(r)
  {
    StripEnds(s);
    RStrip(LStrip(s))
  }

  /** Right-stripping a left-stripped string leaves neither end white. */
  lemma StripEnds(s: string)
    ensures Trimmed(RStrip(LStrip(s)))
  {
    var t := LStrip(s);
    var r := RStrip(t);
    if r != [] {
      assert r[0] == t[0];
    }
  }

  /** `strip` gives the empty string exactly when every character is white space. */
  lemma StripBlank(s: string)
    ensures Strip(s) == [] <==> forall i :: 0 <= i < |s| ==> IsSpace(s[i])
  {
    var t := LStrip(s);
    if t != [] {
      assert !IsSpace(s[|s| - |t|]) by { assert t[0] == s[|s| - |t|]; }
      assert RStrip(t) != [] by { assert !IsSpace(t[0]); }
    }
  }

  /** Stripping a string that neither starts nor ends with white space leaves it as it is. */
  lemma StripTrimmed(s: string)
    requires Trimmed(s)
    ensures Strip(s) == s
  {
  }

  /** `strip` is idempotent. */
  lemma StripIdempotent(s: string)
    ensures Strip(Strip(s)) == Strip(s)
  {
    StripTrimmed(Strip(s));
  }

  /** Number of leading characters that are not white space. */
  function WordLength(s: string): (n: nat)
    ensures n <= |s|
    ensures forall i :: 0 <= i < n ==> !IsSpace(s[i])
    ensures n == |s| || IsSpace(s[n])
  {
    if s == [] || IsSpace(s[0]) then 0 else 1 + WordLength(s[1..])
  }

  /** `s.split()` with no separator: the maximal runs of non-white-space characters, in order. */
  function Split(s: string): seq<string>
    decreases |s|
  {
    var t := LStrip(s);
    if t == [] then [] else
      var n := WordLength(t);
      [t[..n]] + Split(t[n..])
  }

  /** Every piece `split()` returns is a non-empty run free of white space. */
  lemma {:induction false} SplitWords(s: string)
    ensures forall i :: 0 <= i < |Split(s)| ==> Split(s)[i] != [] && NoSpace(Split(s)[i])
    decreases |s|
  {
    var t := LStrip(s);
    if t != [] {
      var n := WordLength(t);
      var w := t[..n];
      var rest := Split(t[n..]);
      assert Split(s) == [w] + rest;
      assert w != [] && NoSpace(w) by {
        forall j | 0 <= j < |w| ensures !IsSpace(w[j]) {
          assert w[j] == t[j];
        }
      }
      SplitWords(t[n..]);
      forall i | 0 <= i < |Split(s)| ensures Split(s)[i] != [] && NoSpace(Split(s)[i]) {
        if i > 0 {
          assert Split(s)[i] == rest[i - 1];
        }
      }
    }
  }

  /** True when every character of `g` is white space. */
  predicate AllSpace(g: string) {
    forall i :: 0 <= i < |g| ==> IsSpace(g[i])
  }

  /** The words with the gaps woven in: `gaps[0] + words[0] + gaps[1] + ... + words[n-1] + gaps[n]`. */
  function Weave(gaps: seq<string>, words: seq<string>): string
    requires |gaps| == |words| + 1
    decreases |words|
  {
    if words == [] then gaps[0] else gaps[0] + words[0] + Weave(gaps[1..], words[1..])
  }

  /** Gaps made of white space, non-empty between two words. */
  predicate Separators(gaps: seq<string>, words: seq<string>) {
    && |gaps| == |words| + 1
    && (forall i :: 0 <= i < |gaps| ==> AllSpace(gaps[i]))
    && (forall i :: 0 < i < |words| ==> gaps[i] != [])
  }

  /**
   * `split()` recovers its input: the text is its words woven with white-space
   * gaps, each gap between two words non-empty. With `SplitWords` (every word
   * non-empty and free of white space) this determines the words uniquely.
   */
  lemma {:induction false} SplitWeave(s: string)
    ensures exists gaps :: Separators(gaps, Split(s)) && Weave(gaps, Split(s)) == s
    decreases |s|
  {
    var t := LStrip(s);
    if t == [] {
      SplitWeaveBlank(s);
    } else {
      var lead, n := s[..|s| - |t|], WordLength(t);
      var w, rest := t[..n], t[n..];
      SplitShape(s);
      SplitWeave(rest);
      var gs :| Separators(gs, Split(rest)) && Weave(gs, Split(rest)) == rest;
      SplitWords(rest);
      RestGap(rest, gs, Split(rest));
      Assemble(s, lead, t, w, rest, gs, Split(rest));
      assert Separators([lead] + gs, Split(s)) && Weave([lead] + gs, Split(s)) == s;
    }
  }

  /** A blank text is a single gap. */
  lemma SplitWeaveBlank(s: string)
    requires LStrip(s) == []
    ensures Separators([s], Split(s)) && Weave([s], Split(s)) == s
  {
    assert Split(s) == [];
  }

  /**
   * A text with a word: leading white space, the first word, and a rest that
   * is empty or starts with white space.
   */
  lemma SplitShape(s: string)
    requires LStrip(s) != []
    ensures var t := LStrip(s); var n := WordLength(t);
      && s == s[..|s| - |t|] + t && t == t[..n] + t[n..]
      && AllSpace(s[..|s| - |t|])
      && (t[n..] == [] || IsSpace(t[n..][0]))
      && Split(s) == [t[..n]] + Split(t[n..])
  {
    var t := LStrip(s);
    var lead := s[..|s| - |t|];
    CutAt(s, |s| - |t|);
    CutAt(t, WordLength(t));
    assert AllSpace(lead) by {
      forall i | 0 <= i < |lead| ensures IsSpace(lead[i]) {
        assert lead[i] == s[i];
      }
    }
  }

  /** A string is its prefix followed by its suffix. */
  lemma CutAt(s: string, n: nat)
    requires n <= |s|
    ensures s == s[..n] + s[n..]
  {
  }

  /** The rest after a word starts with white space, so its first gap is non-empty when it has a word. */
  lemma RestGap(rest: string, gs: seq<string>, ws: seq<string>)
    requires rest == [] || IsSpace(rest[0])
    requires Separators(gs, ws) && Weave(gs, ws) == rest
    requires ws != [] ==> ws[0] != [] && NoSpace(ws[0])
    ensures ws != [] ==> gs[0] != []
  {
    if ws != [] {
      FirstGap(gs, ws, rest);
    }
  }

  /** One more word: a leading white-space gap and the word in front of a woven rest. */
  lemma Assemble(s: string, lead: string, t: string, w: string, rest: string, gs: seq<string>, ws: seq<string>)
    requires s == lead + t && t == w + rest && AllSpace(lead)
    requires Separators(gs, ws) && Weave(gs, ws) == rest
    requires ws != [] ==> gs[0] != []
    ensures Separators([lead] + gs, [w] + ws) && Weave([lead] + gs, [w] + ws) == s
  {
    WeaveCons(lead, w, gs, ws);
    Extend(lead, gs, w, ws);
  }

  /** Weaving one more leading word. */
  lemma WeaveCons(lead: string, w: string, gs: seq<string>, ws: seq<string>)
    requires |gs| == |ws| + 1
    ensures Weave([lead] + gs, [w] + ws) == lead + w + Weave(gs, ws)
  {
    assert ([lead] + gs)[1..] == gs;
    assert ([w] + ws)[1..] == ws;
  }

  /** A woven text that starts with white space before a word has a non-empty first gap. */
  lemma FirstGap(gs: seq<string>, ws: seq<string>, text: string)
    requires |gs| == |ws| + 1 && Weave(gs, ws) == text
    requires text != [] && IsSpace(text[0])
    requires ws != [] && ws[0] != [] && NoSpace(ws[0])
    ensures gs[0] != []
  {
  }

  /** Separators stay separators with a leading white-space gap before one more word. */
  lemma Extend(lead: string, gs: seq<string>, w: string, ws: seq<string>)
    requires AllSpace(lead) && Separators(gs, ws)
    requires ws != [] ==> gs[0] != []
    ensures Separators([lead] + gs, [w] + ws)
  {
    var gaps := [lead] + gs;
    forall i | 0 < i < |ws| + 1 ensures gaps[i] != [] {
      assert gaps[i] == gs[i - 1];
    }
    forall i | 0 <= i < |gaps| ensures AllSpace(gaps[i]) {
      if i > 0 { assert gaps[i] == gs[i - 1]; }
    }
  }

  /** Widening the first gap. */
  lemma WeaveLead(gs: seq<string>, ws: seq<string>, lead: string)
    requires |gs| == |ws| + 1
    ensures Weave([lead + gs[0]] + gs[1..], ws) == lead + Weave(gs, ws)
  {
    var g := [lead + gs[0]] + gs[1..];
    assert g[1..] == gs[1..];
  }

  /** Widening the last gap. */
  lemma {:induction false} WeaveTrail(gs: seq<string>, ws: seq<string>, trail: string)
    requires |gs| == |ws| + 1
    ensures Weave(gs[..|ws|] + [gs[|ws|] + trail], ws) == Weave(gs, ws) + trail
    decreases |ws|
  {
    var g := gs[..|ws|] + [gs[|ws|] + trail];
    if ws != [] {
      WeaveTrail(gs[1..], ws[1..], trail);
      assert g[1..] == gs[1..][..|ws[1..]|] + [gs[1..][|ws[1..]|] + trail];
    }
  }

  /** White space added at the outer ends keeps the gaps separators. */
  lemma SeparatorsWiden(gs: seq<string>, ws: seq<string>, lead: string, trail: string)
    requires Separators(gs, ws) && AllSpace(lead) && AllSpace(trail)
    ensures var g := gs[..|ws|] + [gs[|ws|] + trail];
      Separators(g, ws) && Separators([lead + g[0]] + g[1..], ws)
  {
    var g := gs[..|ws|] + [gs[|ws|] + trail];
    forall i | 0 <= i < |g| ensures AllSpace(g[i]) {
      if i < |ws| { assert g[i] == gs[i]; } else { assert AllSpace(gs[|ws|]); }
    }
    assert forall i :: 0 < i < |ws| ==> g[i] == gs[i];
    var h := [lead + g[0]] + g[1..];
    forall i | 0 <= i < |h| ensures AllSpace(h[i]) {
      if i > 0 { assert h[i] == g[i]; }
    }
    assert forall i :: 0 < i < |ws| ==> h[i] == g[i];
  }

  /** A text is its leading white space, its stripped text and its trailing white space. */
  lemma StripParts(q: string)
    ensures var t := LStrip(q); var m := Strip(q);
      q == q[..|q| - |t|] + m + t[|m|..] && AllSpace(q[..|q| - |t|]) && AllSpace(t[|m|..])
  {
    var t := LStrip(q);
    var m := RStrip(t);
    var lead, trail := q[..|q| - |t|], t[|m|..];
    assert AllSpace(lead) by {
      forall i | 0 <= i < |lead| ensures IsSpace(lead[i]) {
        assert lead[i] == q[i];
      }
    }
    assert AllSpace(trail) by {
      forall i | 0 <= i < |trail| ensures IsSpace(trail[i]) {
        assert trail[i] == t[|m| + i];
      }
    }
    CutAt(q, |q| - |t|);
    CutAt(t, |m|);
    Glue(q, lead, t, m, trail);
  }

  /** Cutting a text in two and the second part again in two. */
  lemma Glue(q: string, lead: string, t: string, m: string, trail: string)
    requires q == lead + t && t == m + trail
    ensures q == lead + m + trail
  {
  }

  /**
   * The words of the stripped text are the words of the text: the text is
   * those words woven with white-space gaps, non-empty between two words.
   */
  lemma StripSplitWeave(q: string)
    ensures exists gaps :: Separators(gaps, Split(Strip(q))) && Weave(gaps, Split(Strip(q))) == q
  {
    var t := LStrip(q);
    var m := Strip(q);
    StripParts(q);
    SplitWeave(m);
    var gs :| Separators(gs, Split(m)) && Weave(gs, Split(m)) == m;
    var g := Widen(q, m, q[..|q| - |t|], t[|m|..], gs, Split(m));
  }

  /** The gaps of the stripped text, widened by the white space `strip` removed, weave the whole text. */
  lemma Widen(q: string, m: string, lead: string, trail: string, gs: seq<string>, ws: seq<string>) returns (gaps: seq<string>)
    requires q == lead + m + trail && AllSpace(lead) && AllSpace(trail)
    requires Separators(gs, ws) && Weave(gs, ws) == m
    ensures Separators(gaps, ws) && Weave(gaps, ws) == q
  {
    var g := gs[..|ws|] + [gs[|ws|] + trail];
    WeaveTrail(gs, ws, trail);
    WeaveLead(g, ws, lead);
    SeparatorsWiden(gs, ws, lead, trail);
    gaps := [lead + g[0]] + g[1..];
  }

  /** `s.split()` is empty exactly when `s` is blank. */
  lemma {:induction false} SplitEmptyIffBlank(s: string)
    ensures Split(s) == [] <==> Strip(s) == []
  {
    var t := LStrip(s);
    if t != [] {
      assert RStrip(t) != [] by { assert !IsSpace(t[0]); }
    }
  }

  /** `sep.join(parts)`. */
  function Join(sep: string, parts: seq<string>): (r: string)
    ensures parts == [] ==> r == []
    ensures |parts| == 1 ==> r == parts[0]
  {
    if |parts| == 0 then []
    else if |parts| == 1 then parts[0]
    else parts[0] + sep + Join(sep, parts[1..])
  }

  /** ASCII lower-casing of one character. */
  function LowerChar(c: char): char {
    if 'A' <= c <= 'Z' then (c as int + 32) as char else c
  }

  /**
   * `s.lower()`, on the ASCII letters only. Compared against the ASCII words
   * the source uses ("nan", "none"), this gives what Python's full lower-casing
   * gives: no other character lower-cases to an ASCII letter other than "k".
   */
  function Lower(s: string): (r: string)
    ensures |r| == |s|
    ensures forall i :: 0 <= i < |s| ==> r[i] == LowerChar(s[i])
  {
    seq(|s|, i requires 0 <= i < |s| => LowerChar(s[i]))
  }

  /** `s.replace(target, repl)` for a one-character `target`. */
  function ReplaceChar(s: string, target: char, repl: string): (r: string)
    ensures target !in repl ==> target !in r
    ensures forall c :: c in r && c !in repl ==> c in s && c != target
  {
    if s == [] then []
    else (if s[0] == target then repl else [s[0]]) + ReplaceChar(s[1..], target, repl)
  }

  /** The decimal digit for `d`. */
  function Digit(d: nat): char
    requires d < 10
  {
    "0123456789"[d]
  }

  /** `str(n)` for a natural number: its decimal digits, most significant first. */
  function NatToString(n: nat): (r: string)
    ensures r != [] && forall i :: 0 <= i < |r| ==> '0' <= r[i] <= '9'
  {
    if n < 10 then [Digit(n)] else NatToString(n / 10) + [Digit(n % 10)]
  }

  /** `str(i)` for an integer: a minus sign before the digits of a negative number. */
  function IntToString(i: int): (r: string)
    ensures r != [] && (r[0] == '-' <==> i < 0)
  {
    if i < 0 then "-" + NatToString(-i) else NatToString(i)
  }

  /** The number a string of decimal digits denotes (right-most digit least significant). */
  function DigitsValue(s: string): nat
    requires forall i :: 0 <= i < |s| ==> '0' <= s[i] <= '9'
  {
    if s == [] then 0 else DigitsValue(s[..|s| - 1]) * 10 + (s[|s| - 1] as int - '0' as int)
  }

  /** Reading back the digits `str` wrote gives the number again. */
  lemma {:induction false} NatToStringRoundTrip(n: nat)
    ensures DigitsValue(NatToString(n)) == n
  {
    if n >= 10 {
      NatToStringRoundTrip(n / 10);
      var s := NatToString(n);
      assert s[..|s| - 1] == NatToString(n / 10);
    }
  }
}
