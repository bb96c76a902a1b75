/**
 * Literal search: the LIKE pattern of internal/persistence/room_repo.go and the Groonga query of
 * internal/persistence/timeline.go, each against a small grammar of the language that reads it.
 */
module Escaping {
  import opened Options
  import Timeline

  // ---- LIKE ----

  predicate LikeSpecial(c: char) { c == '\\' || c == '%' || c == '_' }

  /** strings.NewReplacer over `\`, `%` and `_`, one left-to-right pass. */
  function EscapeLike(s: string): string {
    if s == "" then "" else (if LikeSpecial(s[0]) then ['\\', s[0]] else [s[0]]) + EscapeLike(s[1..])
  }

  function LikeSubstringPattern(fragment: string): string { "%" + EscapeLike(fragment) + "%" }

  /** SQL LIKE: % is any run, _ any one character, \ makes the next character literal. */
  predicate Like(p: string, s: string)
    decreases |p|
  {
    if p == "" then s == ""
    else if p[0] == '%' then exists i: nat :: i <= |s| && Like(p[1..], s[i..])
    else if p[0] == '_' then s != "" && Like(p[1..], s[1..])
    else if p[0] == '\\' then |p| > 1 && s != "" && s[0] == p[1] && Like(p[2..], s[1..])
    else s != "" && s[0] == p[0] && Like(p[1..], s[1..])
  }

  /** PostgreSQL raises an error for a pattern whose last escape has nothing to escape. */
  predicate WellFormedLike(p: string) {
    if p == "" then true
    else if p[0] == '\\' then |p| > 1 && WellFormedLike(p[2..])
    else WellFormedLike(p[1..])
  }

  /** Lower-casing, character by character; a character may fold to several, or to none. */
  function Folded(fold: char -> string, s: string): string {
    if s == "" then "" else fold(s[0]) + Folded(fold, s[1..])
  }

  ghost predicate KeepsLikeSyntax(fold: char -> string) {
    forall c: char ::
      if LikeSpecial(c) then fold(c) == [c]
      else forall k :: 0 <= k < |fold(c)| ==> !LikeSpecial(fold(c)[k])
  }

  /** ILIKE compares the lower-cased pattern with the lower-cased text. */
  predicate ILike(fold: char -> string, p: string, s: string) { Like(Folded(fold, p), Folded(fold, s)) }

  lemma {:induction false} EscapeLikeConcat(a: string, b: string)
    ensures EscapeLike(a + b) == EscapeLike(a) + EscapeLike(b)
  {
    if a == "" {
      assert a + b == b;
    } else {
      assert (a + b)[1..] == a[1..] + b;
      EscapeLikeConcat(a[1..], b);
    }
  }

  lemma {:induction false} PlainIsUnescaped(s: string)
    requires forall k :: 0 <= k < |s| ==> !LikeSpecial(s[k])
    ensures EscapeLike(s) == s
  {
    if s != "" {
      PlainIsUnescaped(s[1..]);
    }
  }

  lemma {:induction false} FoldedConcat(fold: char -> string, a: string, b: string)
    ensures Folded(fold, a + b) == Folded(fold, a) + Folded(fold, b)
  {
    if a == "" {
      assert a + b == b;
    } else {
      assert (a + b)[1..] == a[1..] + b;
      FoldedConcat(fold, a[1..], b);
    }
  }

  lemma FoldedOne(fold: char -> string, c: char)
    ensures Folded(fold, [c]) == fold(c)
  {
    assert [c][1..] == "";
    assert Folded(fold, [c][1..]) == "";
  }

  /** Folding an escaped fragment is escaping the folded one. */
  lemma {:induction false} EscapeCommutesWithFold(fold: char -> string, f: string)
    requires KeepsLikeSyntax(fold)
    ensures Folded(fold, EscapeLike(f)) == EscapeLike(Folded(fold, f))
  {
    if f != "" {
      var c, rest := f[0], f[1..];
      EscapeCommutesWithFold(fold, rest);
      EscapeLikeConcat(fold(c), Folded(fold, rest));
      if LikeSpecial(c) {
        assert fold('\\') == ['\\'] && fold(c) == [c];
        FoldedOne(fold, '\\');
        FoldedOne(fold, c);
        FoldedConcat(fold, ['\\'], [c]);
        assert ['\\'] + [c] == ['\\', c];
        FoldedConcat(fold, ['\\', c], EscapeLike(rest));
        assert [c][1..] == "";
        assert EscapeLike([c]) == ['\\', c] + EscapeLike([c][1..]);
      } else {
        FoldedOne(fold, c);
        FoldedConcat(fold, [c], EscapeLike(rest));
        PlainIsUnescaped(fold(c));
      }
    }
  }

  /** An escaped fragment inside a pattern matches itself and nothing else. */
  lemma {:induction false} EscapedMatchesItself(f: string, rest: string, s: string)
    ensures Like(EscapeLike(f) + rest, s) <==> |f| <= |s| && s[..|f|] == f && Like(rest, s[|f|..])
  {
    var p := EscapeLike(f) + rest;
    if f == "" {
      assert p == rest && s[0..] == s;
    } else {
      var q := EscapeLike(f[1..]) + rest;
      if LikeSpecial(f[0]) {
        assert p == ['\\', f[0]] + q && p[2..] == q;
      } else {
        assert p == [f[0]] + q && p[1..] == q;
      }
      assert Like(p, s) <==> s != "" && s[0] == f[0] && Like(q, s[1..]);
      if s != "" {
        EscapedMatchesItself(f[1..], rest, s[1..]);
        if |f| <= |s| {
          assert s[1..][|f| - 1..] == s[|f|..];
          assert s[..|f|] == [s[0]] + s[1..][..|f| - 1];
          assert f == [f[0]] + f[1..];
        }
      }
    }
  }

  lemma TrailingPercentMatchesAll(s: string)
    ensures Like("%", s)
  {
    assert "%"[1..] == "" && s[|s|..] == "";
    assert Like("%"[1..], s[|s|..]);
  }

  lemma LikeMeansContains(f: string, name: string)
    ensures Like(LikeSubstringPattern(f), name) <==> Timeline.Contains(name, f)
  {
    var p := LikeSubstringPattern(f);
    var inner := EscapeLike(f) + "%";
    assert p[1..] == inner;
    forall i: nat | i <= |name|
      ensures Like(inner, name[i..]) <==> Timeline.OccursAt(name, f, i)
    {
      EscapedMatchesItself(f, "%", name[i..]);
      if i + |f| <= |name| {
        TrailingPercentMatchesAll(name[i..][|f|..]);
        assert name[i..][..|f|] == name[i..i + |f|];
      }
    }
  }

  /** The catalogue filter: case-insensitive containment, whatever wildcards the fragment holds. */
  lemma ILikeMeansContains(fold: char -> string, f: string, name: string)
    requires KeepsLikeSyntax(fold)
    ensures ILike(fold, LikeSubstringPattern(f), name) <==> Timeline.Contains(Folded(fold, name), Folded(fold, f))
  {
    assert LikeSpecial('%') && fold('%') == "%";
    FoldedOne(fold, '%');
    FoldedConcat(fold, "%" + EscapeLike(f), "%");
    FoldedConcat(fold, "%", EscapeLike(f));
    EscapeCommutesWithFold(fold, f);
    assert Folded(fold, LikeSubstringPattern(f)) == LikeSubstringPattern(Folded(fold, f));
    LikeMeansContains(Folded(fold, f), Folded(fold, name));
  }

  lemma {:induction false} EscapedKeepsWellFormed(f: string, rest: string)
    ensures WellFormedLike(EscapeLike(f) + rest) <==> WellFormedLike(rest)
  {
    var p := EscapeLike(f) + rest;
    if f == "" {
      assert p == rest;
    } else {
      var q := EscapeLike(f[1..]) + rest;
      if LikeSpecial(f[0]) {
        assert p == ['\\', f[0]] + q && p[2..] == q;
      } else {
        assert p == [f[0]] + q && p[1..] == q;
      }
      EscapedKeepsWellFormed(f[1..], rest);
    }
  }

  /** The database never rejects a built pattern. */
  lemma PatternIsWellFormed(f: string)
    ensures WellFormedLike(LikeSubstringPattern(f))
  {
    EscapedKeepsWellFormed(f, "%");
    assert LikeSubstringPattern(f)[1..] == EscapeLike(f) + "%";
    assert "%"[1..] == "";
    assert WellFormedLike("%");
  }

  // ---- Terms of a message query ----

  /** unicode.IsSpace. */
  predicate IsSpace(c: char) {
    || '\t' <= c <= '\r' || c == ' ' || c == '\U{85}' || c == '\U{a0}' || c == '\U{1680}'
    || '\U{2000}' <= c <= '\U{200a}' || c == '\U{2028}' || c == '\U{2029}' || c == '\U{202f}' || c == '\U{205f}'
    || c == '\U{3000}'
  }

  /** Length of the run of non-space characters at the front. */
  function WordLength(s: string): (n: nat)
    ensures n <= |s|
    ensures forall k :: 0 <= k < n ==> !IsSpace(s[k])
    ensures n < |s| ==> IsSpace(s[n])
  {
    if s == "" || IsSpace(s[0]) then 0 else 1 + WordLength(s[1..])
  }

  /** strings.Fields. */
  function Fields(s: string): seq<string>
    decreases |s|
  {
    if s == "" then []
    else if IsSpace(s[0]) then Fields(s[1..])
    else [s[..WordLength(s)]] + Fields(s[WordLength(s)..])
  }

  predicate Blank(s: string) { forall k :: 0 <= k < |s| ==> IsSpace(s[k]) }

  /** s[a..b] is the first word of s: only blanks before it, and a blank or the end after it. */
  predicate FirstWord(s: string, a: nat, b: nat) {
    && a < b <= |s|
    && Blank(s[..a])
    && (forall k :: a <= k < b ==> !IsSpace(s[k]))
    && (b == |s| || IsSpace(s[b]))
  }

  /** `terms` are the maximal space-free runs of s, in order. */
  ghost predicate AreTerms(s: string, terms: seq<string>)
    decreases |terms|
  {
    if terms == [] then Blank(s)
    else exists a: nat, b: nat :: FirstWord(s, a, b) && s[a..b] == terms[0] && AreTerms(s[b..], terms[1..])
  }

  lemma {:induction false} FieldsOfBlank(s: string)
    requires Blank(s)
    ensures Fields(s) == []
  {
    if s != "" {
      assert IsSpace(s[0]);
      FieldsOfBlank(s[1..]);
    }
  }

  lemma {:induction false} FieldsSkipsBlanks(s: string, a: nat)
    requires a <= |s| && Blank(s[..a])
    ensures Fields(s) == Fields(s[a..])
  {
    if a == 0 {
      assert s[0..] == s;
    } else {
      assert IsSpace(s[..a][0]);
      assert s[1..][..a - 1] == s[..a][1..];
      FieldsSkipsBlanks(s[1..], a - 1);
      assert s[1..][a - 1..] == s[a..];
    }
  }

  lemma {:induction false} WordLengthIs(s: string, n: nat)
    requires n <= |s| && (forall k :: 0 <= k < n ==> !IsSpace(s[k])) && (n < |s| ==> IsSpace(s[n]))
    ensures WordLength(s) == n
  {
    if n > 0 {
      WordLengthIs(s[1..], n - 1);
    }
  }

  lemma WordAt(s: string, a: nat, b: nat)
    requires FirstWord(s, a, b)
    ensures WordLength(s[a..]) == b - a
  {
    var t := s[a..];
    assert forall k :: 0 <= k < |t| ==> t[k] == s[a + k];
    WordLengthIs(t, b - a);
  }

  lemma FieldsOfWord(t: string, n: nat)
    requires 0 < n == WordLength(t)
    ensures Fields(t) == [t[..n]] + Fields(t[n..])
  {
  }

  lemma FieldsTakesAWord(s: string, a: nat, b: nat)
    requires FirstWord(s, a, b)
    ensures Fields(s) == [s[a..b]] + Fields(s[b..])
  {
    FieldsSkipsBlanks(s, a);
    WordAt(s, a, b);
    FieldsFrom(s, a, b);
  }

  lemma WordIsFirst(s: string, a: nat)
    requires a < |s| && Blank(s[..a]) && !IsSpace(s[a])
    ensures FirstWord(s, a, a + WordLength(s[a..])) && 0 < WordLength(s[a..])
  {
    var t := s[a..];
    assert forall k :: a <= k < |s| ==> s[k] == t[k - a];
  }

  lemma OneMoreBlank(s: string, a: nat)
    requires a < |s| && Blank(s[..a]) && IsSpace(s[a])
    ensures Blank(s[..a + 1]) && Fields(s[a..]) == Fields(s[a + 1..])
  {
    assert s[..a + 1] == s[..a] + [s[a]];
    assert s[a..][1..] == s[a + 1..];
  }

  lemma TermsFrom(s: string, a: nat, b: nat, rest: seq<string>)
    requires FirstWord(s, a, b) && AreTerms(s[b..], rest)
    ensures AreTerms(s, [s[a..b]] + rest)
  {
    var terms := [s[a..b]] + rest;
    assert terms[0] == s[a..b] && terms[1..] == rest;
  }

  /** Fields from position a on: the word there, then Fields of what follows it. */
  lemma FieldsFrom(s: string, a: nat, b: nat)
    requires a < b <= |s| && b - a == WordLength(s[a..])
    ensures Fields(s[a..]) == [s[a..b]] + Fields(s[b..])
  {
    FieldsOfWord(s[a..], b - a);
    assert s[a..][..b - a] == s[a..b] && s[a..][b - a..] == s[b..];
  }

  lemma {:induction false} FieldsAreTerms(s: string, a: nat)
    requires a <= |s| && Blank(s[..a])
    ensures AreTerms(s, Fields(s[a..]))
    decreases |s|, |s| - a
  {
    if a == |s| {
      assert s[..a] == s;
    } else if IsSpace(s[a]) {
      OneMoreBlank(s, a);
      FieldsAreTerms(s, a + 1);
    } else {
      var b := a + WordLength(s[a..]);
      WordIsFirst(s, a);
      FieldsFrom(s, a, b);
      FieldsAreTerms(s[b..], 0);
      assert s[b..][0..] == s[b..];
      TermsFrom(s, a, b, Fields(s[b..]));
    }
  }

  /** Fields gives the terms of a fragment, and nothing else is its terms. */
  lemma {:induction false} TermsAreFields(s: string, terms: seq<string>)
    ensures AreTerms(s, terms) <==> terms == Fields(s)
    decreases |terms|
  {
    FieldsAreTerms(s, 0);
    assert s[0..] == s;
    if AreTerms(s, terms) {
      if terms == [] {
        FieldsOfBlank(s);
      } else {
        var a: nat, b: nat :| FirstWord(s, a, b) && s[a..b] == terms[0] && AreTerms(s[b..], terms[1..]);
        TermsAreFields(s[b..], terms[1..]);
        FieldsTakesAWord(s, a, b);
        assert terms == [terms[0]] + terms[1..];
      }
    }
  }

  // ---- The Groonga query ----

  function EscapePhrase(s: string): string {
    if s == "" then "" else (if s[0] == '\\' || s[0] == '"' then ['\\', s[0]] else [s[0]]) + EscapePhrase(s[1..])
  }

  function Quoted(term: string): string { "\"" + EscapePhrase(term) + "\"" }

  /** strings.Join with one space. */
  function Joined(parts: seq<string>): string {
    if parts == [] then "" else if |parts| == 1 then parts[0] else parts[0] + " " + Joined(parts[1..])
  }

  function QuotedAll(terms: seq<string>): seq<string> { seq(|terms|, i requires 0 <= i < |terms| => Quoted(terms[i])) }

  /** groongaLiteralQuery: quote every term in a loop, then join. */
  method GroongaLiteralQuery(fragment: string) returns (query: string)
    ensures query == Joined(QuotedAll(Fields(fragment)))
    ensures Tokenize(query) == Some(Phrases(Fields(fragment)))
  {
    var terms := Fields(fragment);
    var quoted: seq<string> := [];
    var i := 0;
    while i < |terms|
      invariant 0 <= i <= |terms| && quoted == QuotedAll(terms[..i])
    {
      quoted := quoted + ["\"" + EscapePhrase(terms[i]) + "\""];
      i := i + 1;
    }
    assert terms[..i] == terms;
    query := Joined(quoted);
    QueryIsItsTerms(fragment);
  }

  /**
   * What the query parser sees: a quoted phrase is taken literally; any other run of characters is
   * a Word, where operators such as OR and a leading minus act.
   */
  datatype Token = Phrase(text: string) | Word(text: string)

  function Phrases(terms: seq<string>): seq<Token> { seq(|terms|, i requires 0 <= i < |terms| => Phrase(terms[i])) }

  /** The phrase body up to its closing quote and what follows it; None when the quote never closes. */
  function PhraseBody(q: string): (r: Option<(string, string)>)
    ensures r.Some? ==> |r.value.1| < |q|
    decreases |q|
  {
    if q == "" then None
    else if q[0] == '"' then Some(("", q[1..]))
    else if q[0] == '\\' then
      if |q| == 1 then None
      else
        match PhraseBody(q[2..])
        case None => None
        case Some((text, rest)) => Some(([q[1]] + text, rest))
    else
      match PhraseBody(q[1..])
      case None => None
      case Some((text, rest)) => Some(([q[0]] + text, rest))
  }

  function BareLength(q: string): (n: nat)
    ensures n <= |q|
  {
    if q == "" || q[0] == ' ' || q[0] == '"' then 0 else 1 + BareLength(q[1..])
  }

  function Prepend(t: Token, r: Option<seq<Token>>): Option<seq<Token>> {
    match r
    case None => None
    case Some(ts) => Some([t] + ts)
  }

  function Tokenize(q: string): Option<seq<Token>>
    decreases |q|
  {
    if q == "" then Some([])
    else if q[0] == ' ' then Tokenize(q[1..])
    else if q[0] == '"' then
      match PhraseBody(q[1..])
      case None => None
      case Some((text, rest)) => Prepend(Phrase(text), Tokenize(rest))
    else
      Prepend(Word(q[..BareLength(q)]), Tokenize(q[BareLength(q)..]))
  }

  lemma {:induction false} PhraseRoundTrip(term: string, rest: string)
    ensures PhraseBody(EscapePhrase(term) + "\"" + rest) == Some((term, rest))
  {
    var p := EscapePhrase(term) + "\"" + rest;
    if term == "" {
      assert p == ['"'] + rest && p[1..] == rest;
    } else {
      PhraseRoundTrip(term[1..], rest);
      var q := EscapePhrase(term[1..]) + "\"" + rest;
      if term[0] == '\\' || term[0] == '"' {
        assert p == ['\\', term[0]] + q && p[2..] == q;
      } else {
        assert p == [term[0]] + q && p[1..] == q;
      }
      assert term == [term[0]] + term[1..];
    }
  }

  lemma QuotedIsOnePhrase(term: string, rest: string)
    ensures Tokenize(Quoted(term) + rest) == Prepend(Phrase(term), Tokenize(rest))
  {
    var q := Quoted(term) + rest;
    assert q[1..] == EscapePhrase(term) + "\"" + rest;
    PhraseRoundTrip(term, rest);
  }

  lemma {:induction false} QuotedTermsTokenize(terms: seq<string>)
    ensures Tokenize(Joined(QuotedAll(terms))) == Some(Phrases(terms))
  {
    var parts := QuotedAll(terms);
    if terms == [] {
      assert Phrases(terms) == [];
    } else if |terms| == 1 {
      QuotedIsOnePhrase(terms[0], "");
      assert Quoted(terms[0]) + "" == Joined(parts);
      assert Tokenize("") == Some([]);
      assert Phrases(terms) == [Phrase(terms[0])] + [];
    } else {
      QuotedTermsTokenize(terms[1..]);
      assert parts[1..] == QuotedAll(terms[1..]);
      var tail := " " + Joined(parts[1..]);
      assert Joined(parts) == Quoted(terms[0]) + tail;
      QuotedIsOnePhrase(terms[0], tail);
      assert tail[1..] == Joined(parts[1..]);
      assert Phrases(terms) == [Phrase(terms[0])] + Phrases(terms[1..]);
    }
  }

  lemma QueryIsItsTerms(fragment: string)
    ensures Tokenize(Joined(QuotedAll(Fields(fragment)))) == Some(Phrases(Fields(fragment)))
  {
    QuotedTermsTokenize(Fields(fragment));
  }

  /** How a query made of phrases alone reads a text: the implicit AND of containments. */
  predicate AllPhrasesIn(tokens: seq<Token>, text: string) {
    forall k :: 0 <= k < |tokens| ==> tokens[k].Phrase? && Timeline.Contains(text, tokens[k].text)
  }

  /** A fragment can only ever mean "every one of these terms appears". */
  lemma QueryMeansEveryTerm(fragment: string, terms: seq<string>, text: string)
    requires AreTerms(fragment, terms)
    ensures var tokens := Tokenize(Joined(QuotedAll(Fields(fragment))));
            && tokens.Some?
            && (AllPhrasesIn(tokens.value, text) <==> forall t :: t in terms ==> Timeline.Contains(text, t))
  {
    TermsAreFields(fragment, terms);
    QueryIsItsTerms(fragment);
    var ps := Phrases(terms);
    forall k | 0 <= k < |terms| ensures ps[k] == Phrase(terms[k]) && terms[k] in terms {}
    if AllPhrasesIn(ps, text) {
      forall t | t in terms ensures Timeline.Contains(text, t) {
        var k :| 0 <= k < |terms| && terms[k] == t;
        assert ps[k].text == t;
      }
    }
  }
}
