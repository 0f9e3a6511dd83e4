/** Keyword extraction (`NixAICore._extract_keywords`): the text is lower-cased,
    split into the maximal runs of word characters that `\b\w+\b` finds, and
    every token that is a stop word or has at most two characters is dropped. */
module Keywords {
  import opened Text

  /** The fixed stop-word set of interrogatives and pronouns. */
  const StopWords: set<string> := {
    "что", "как", "кто", "где", "когда", "почему", "зачем",
    "это", "этот", "эта", "эти", "тот", "та", "те", "свой",
    "мои", "твои", "его", "её", "их", "наш", "ваш", "весь",
    "все", "всё", "какой", "какая", "какие", "такой", "такая"
  }

  predicate IsWord(w: string) {
    w != [] && forall i :: 0 <= i < |w| ==> IsWordChar(w[i])
  }

  /** Length of the run of word characters that `s` starts with. */
  function WordRun(s: string): (n: nat)
    ensures n <= |s|
    ensures forall i :: 0 <= i < n ==> IsWordChar(s[i])
    ensures n < |s| ==> !IsWordChar(s[n])
  {
    if s == [] || !IsWordChar(s[0]) then 0 else 1 + WordRun(s[1..])
  }

  /** `re.findall(r'\b\w+\b', s)`: the maximal runs of word characters, in order. */
  function Tokens(s: string): seq<string>
    decreases |s|
  {
    if s == [] then []
    else if !IsWordChar(s[0]) then Tokens(s[1..])
    else
      var n := WordRun(s);
      [s[..n]] + Tokens(s[n..])
  }

  /** Every token is a non-empty run of word characters. */
  lemma {:induction false} TokensAreWords(s: string)
    ensures forall t :: t in Tokens(s) ==> IsWord(t)
    decreases |s|
  {
    if s != [] {
      if !IsWordChar(s[0]) {
        TokensAreWords(s[1..]);
      } else {
        TokensAreWords(s[WordRun(s)..]);
      }
    }
  }

  /** A separator splits the token list: tokens never span a non-word character. */
  lemma {:induction false} TokensSplitAtSeparator(a: string, c: char, b: string)
    requires !IsWordChar(c)
    ensures Tokens(a + [c] + b) == Tokens(a) + Tokens(b)
    decreases |a|
  {
    var s := a + [c] + b;
    if a == [] {
      assert s[1..] == b;
    } else if !IsWordChar(a[0]) {
      assert s[1..] == a[1..] + [c] + b;
      TokensSplitAtSeparator(a[1..], c, b);
    } else {
      var n := WordRun(a);
      WordRunPrefix(a, [c] + b);
      assert a + [c] + b == a + ([c] + b);
      assert s[..n] == a[..n];
      assert s[n..] == a[n..] + [c] + b;
      TokensSplitAtSeparator(a[n..], c, b);
    }
  }

  /** A word run never extends past a non-word character that follows it. */
  lemma {:induction false} WordRunPrefix(a: string, rest: string)
    requires rest != [] && !IsWordChar(rest[0])
    ensures WordRun(a + rest) == WordRun(a)
  {
    if a != [] && IsWordChar(a[0]) {
      assert (a + rest)[1..] == a[1..] + rest;
      WordRunPrefix(a[1..], rest);
    }
  }

  /** A whole word is one token. */
  lemma {:induction false} TokensOfWord(w: string)
    requires IsWord(w)
    ensures Tokens(w) == [w]
  {
    WordRunOfWord(w);
    assert w[..|w|] == w;
    assert Tokens(w[|w|..]) == Tokens([]) == [];
  }

  lemma {:induction false} WordRunOfWord(w: string)
    requires forall i :: 0 <= i < |w| ==> IsWordChar(w[i])
    ensures WordRun(w) == |w|
  {
    if w != [] {
      WordRunOfWord(w[1..]);
    }
  }

  predicate IsKeyword(w: string) {
    w !in StopWords && |w| > 2
  }

  /** The filtering comprehension over the tokens, order kept. */
  function KeepKeywords(ts: seq<string>): seq<string>
  {
    if ts == [] then []
    else if IsKeyword(ts[0]) then [ts[0]] + KeepKeywords(ts[1..])
    else KeepKeywords(ts[1..])
  }

  /** The kept tokens are exactly the tokens that are keywords, and no more of them. */
  lemma {:induction false} KeepKeywordsMembers(ts: seq<string>)
    ensures |KeepKeywords(ts)| <= |ts|
    ensures forall w :: w in KeepKeywords(ts) <==> w in ts && IsKeyword(w)
  {
    if ts != [] {
      KeepKeywordsMembers(ts[1..]);
      assert ts == [ts[0]] + ts[1..];
    }
  }

  /** Filtering commutes with concatenation, so the keywords keep the tokens' order. */
  lemma {:induction false} KeepKeywordsAppend(a: seq<string>, b: seq<string>)
    ensures KeepKeywords(a + b) == KeepKeywords(a) + KeepKeywords(b)
  {
    if a != [] {
      assert (a + b)[0] == a[0] && (a + b)[1..] == a[1..] + b;
      KeepKeywordsAppend(a[1..], b);
    } else {
      assert a + b == b;
    }
  }

  /** `_extract_keywords(text)`. */
  function ExtractKeywords(text: string): seq<string> {
    KeepKeywords(Tokens(Lower(text)))
  }

  /** Every keyword is a token of the lower-cased text longer than two characters
      and not a stop word, and every such token is a keyword. */
  lemma ExtractKeywordsFilter(text: string)
    ensures forall w :: w in ExtractKeywords(text) <==> w in Tokens(Lower(text)) && IsKeyword(w)
    ensures forall w :: w in ExtractKeywords(text) ==> IsWord(w) && |w| > 2 && w !in StopWords
  {
    KeepKeywordsMembers(Tokens(Lower(text)));
    TokensAreWords(Lower(text));
  }

  /** Keywords of text joined by a separator are the keywords of each part, in order. */
  lemma ExtractKeywordsSplit(a: string, c: char, b: string)
    requires !IsWordChar(c) && !IsWordChar(LowerChar(c))
    ensures ExtractKeywords(a + [c] + b) == ExtractKeywords(a) + ExtractKeywords(b)
  {
    assert Lower(a + [c] + b) == Lower(a) + [LowerChar(c)] + Lower(b);
    TokensSplitAtSeparator(Lower(a), LowerChar(c), Lower(b));
    KeepKeywordsAppend(Tokens(Lower(a)), Tokens(Lower(b)));
  }
}
