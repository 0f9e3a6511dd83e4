/** The rule table of the core (`NixAICore.rules`): eighteen alternations of
    literal phrases, each bound to a reply handler, tried in declaration
    order against the lower-cased message with an unanchored search; and the
    handlers themselves (`_greet` … `_joke_handler`), of which only
    `_remember_info` changes the knowledge document. */
module Rules {
  import opened Wrappers
  import opened Text
  import opened Dicts
  import opened Replies
  import opened KnowledgeBase

  datatype Handler =
    | Greet | Goodbye | HowAreYou | ThankYou | AboutMe | AboutCreator | Help | Time | Date
    | RememberInfo | RecallInfo | ClearMemory | HowILearn | WeatherPrompt | Stats
    | Currency | News | Joke

  /** One entry of the table: a pattern `a|b|…` given by its alternatives. */
  datatype Rule = Rule(alternatives: seq<string>, handler: Handler)

  const RuleTable: seq<Rule> := [
    Rule(["привет", "здравствуй", "hello", "hi", "хай"], Greet),
    Rule(["пока", "прощай", "до свидания", "bye"], Goodbye),
    Rule(["как дела", "как ты", "how are you"], HowAreYou),
    Rule(["спасибо", "благодарю", "thanks"], ThankYou),
    Rule(["твое имя", "тебя зовут", "who are you"], AboutMe),
    Rule(["создатель", "кто создал", "who created"], AboutCreator),
    Rule(["помощь", "help", "что ты умеешь"], Help),
    Rule(["время", "который час", "time"], Time),
    Rule(["дата", "число", "какое число"], Date),
    Rule(["запомни", "remember that"], RememberInfo),
    Rule(["что ты знаешь", "расскажи о", "что знаешь"], RecallInfo),
    Rule(["очисти память", "забудь все"], ClearMemory),
    Rule(["как учишься", "как обучаешься"], HowILearn),
    Rule(["погода", "weather", "прогноз"], WeatherPrompt),
    Rule(["статистика", "stats", "моя статистика"], Stats),
    Rule(["курс валют", "курс доллара", "курс евро"], Currency),
    Rule(["новости", "news", "что нового"], News),
    Rule(["анекдот", "шутка", "расскажи шутку"], Joke)
  ]

  /** Position of the remember rule in the table. */
  const RememberRule: nat := 9
  /** Position of the weather-prompt rule in the table. */
  const WeatherRule: nat := 13

  /** `re.search("a|b|…", text)` for literal alternatives: some alternative occurs. */
  predicate AnyOccurs(alternatives: seq<string>, text: string) {
    alternatives != [] && (Contains(text, alternatives[0]) || AnyOccurs(alternatives[1..], text))
  }

  lemma {:induction false} AnyOccursIff(alternatives: seq<string>, text: string)
    ensures AnyOccurs(alternatives, text) <==>
            exists i :: 0 <= i < |alternatives| && Contains(text, alternatives[i])
  {
    if alternatives != [] {
      AnyOccursIff(alternatives[1..], text);
      if exists i :: 0 <= i < |alternatives| && Contains(text, alternatives[i]) {
        var i :| 0 <= i < |alternatives| && Contains(text, alternatives[i]);
        if i > 0 {
          assert alternatives[1..][i - 1] == alternatives[i];
        }
      }
    }
  }

  predicate Matches(rule: Rule, text: string) {
    AnyOccurs(rule.alternatives, text)
  }

  /** The rule loop from position `from` on. */
  function FirstRule(text: string, from: nat): (r: Option<nat>)
    requires from <= |RuleTable|
    ensures r.Some? ==> from <= r.value < |RuleTable| && Matches(RuleTable[r.value], text)
    ensures r.Some? ==> forall j :: from <= j < r.value ==> !Matches(RuleTable[j], text)
    ensures r.None? ==> forall j :: from <= j < |RuleTable| ==> !Matches(RuleTable[j], text)
    decreases |RuleTable| - from
  {
    if from == |RuleTable| then None
    else if Matches(RuleTable[from], text) then Some(from)
    else FirstRule(text, from + 1)
  }

  /** The rule that answers a lower-cased message: the first whose pattern is found in it. */
  function Dispatch(lowered: string): (r: Option<nat>)
    ensures r.Some? ==> r.value < |RuleTable| && Matches(RuleTable[r.value], lowered)
    ensures r.Some? ==> forall j :: 0 <= j < r.value ==> !Matches(RuleTable[j], lowered)
    ensures r.None? <==> forall j :: 0 <= j < |RuleTable| ==> !Matches(RuleTable[j], lowered)
  {
    FirstRule(lowered, 0)
  }

  /** A message mentioning the weather is always taken by some rule, at the
      weather-prompt rule at the latest. */
  lemma WeatherWordsAlwaysDispatched(lowered: string)
    requires Contains(lowered, "погода") || Contains(lowered, "weather") || Contains(lowered, "прогноз")
    ensures Dispatch(lowered).Some? && Dispatch(lowered).value <= WeatherRule
  {
    var alternatives := RuleTable[WeatherRule].alternatives;
    assert alternatives == ["погода", "weather", "прогноз"];
    AnyOccursIff(alternatives, lowered);
    assert Contains(lowered, alternatives[0]) || Contains(lowered, alternatives[1]) ||
           Contains(lowered, alternatives[2]);
    assert Matches(RuleTable[WeatherRule], lowered);
  }

  /** Every alternative of every pattern is a non-empty phrase. */
  lemma NoEmptyAlternative(j: nat)
    requires j < |RuleTable|
    ensures "" !in RuleTable[j].alternatives
  {
  }

  /** The patterns are not anchored at word boundaries: "this" is a greeting. */
  lemma GreetingInsideAWord()
    ensures Dispatch(Lower("this")) == Some(0)
  {
    assert Lower("this") == "this";
    assert "this"[1..][..2] == "hi";
    assert Contains("this", "hi");
    AnyOccursIff(RuleTable[0].alternatives, "this");
    assert RuleTable[0].alternatives[3] == "hi";
  }

  /** Two of the four default questions are answered by a rule, never from the QnA table. */
  lemma DefaultQuestionsShadowed()
    ensures Dispatch("как тебя зовут").Some?
    ensures Dispatch("кто создал тебя").Some?
  {
    assert "как тебя зовут"[4..][..10] == "тебя зовут";
    assert OccursAt("как тебя зовут", "тебя зовут", 4);
    ContainsIffOccurs("как тебя зовут", "тебя зовут");
    AnyOccursIff(RuleTable[4].alternatives, "как тебя зовут");
    assert RuleTable[4].alternatives[1] == "тебя зовут";
    assert Matches(RuleTable[4], "как тебя зовут");

    assert "кто создал тебя"[..10] == "кто создал";
    assert StartsWith("кто создал тебя", "кто создал");
    AnyOccursIff(RuleTable[5].alternatives, "кто создал тебя");
    assert RuleTable[5].alternatives[1] == "кто создал";
    assert Matches(RuleTable[5], "кто создал тебя");
  }

  // ---------------------------------------------------------------------------
  // The two capture patterns, `запомни\s*(?:что|,)?\s*(.+)` and `погода\s+(.+)`,
  // searched the way a backtracking engine does: leftmost start, greedy
  // repetitions tried from longest to shortest, alternatives in order.

  /** Number of whitespace characters starting at position `i`. */
  function SpaceRun(s: string, i: nat): (n: nat)
    requires i <= |s|
    ensures i + n <= |s|
    ensures forall j :: i <= j < i + n ==> IsSpace(s[j])
    ensures i + n < |s| ==> !IsSpace(s[i + n])
    decreases |s| - i
  {
    if i == |s| || !IsSpace(s[i]) then 0 else 1 + SpaceRun(s, i + 1)
  }

  /** End of the line that position `c` is on. */
  function LineEnd(s: string, c: nat): (e: nat)
    requires c <= |s|
    ensures c <= e <= |s|
    ensures forall j :: c <= j < e ==> s[j] != '\n'
    ensures e < |s| ==> s[e] == '\n'
    decreases |s| - c
  {
    if c == |s| || s[c] == '\n' then c else LineEnd(s, c + 1)
  }

  /** `(.+)` at position `c`: the rest of the line, if it is not empty. */
  function GroupAt(s: string, c: nat): (r: Option<string>)
    requires c <= |s|
    ensures r.Some? ==> r.value != [] && '\n' !in r.value && Contains(s, r.value)
    ensures r.Some? <==> c < |s| && s[c] != '\n'
    ensures r.Some? ==> r.value == s[c..LineEnd(s, c)]
  {
    if c < |s| && s[c] != '\n' then
      var e := LineEnd(s, c);
      assert OccursAt(s, s[c..e], c);
      ContainsIffOccurs(s, s[c..e]);
      Some(s[c..e])
    else None
  }

  /** What every captured group is: a non-empty piece of one line of `s`. */
  predicate IsGroupOf(g: Option<string>, s: string) {
    g.Some? ==> g.value != [] && '\n' !in g.value && Contains(s, g.value)
  }

  /** A whitespace repetition of at least `least` characters at `b`, followed by
      `(.+)`: the candidate lengths `k`, `k - 1`, …, `least` are tried in turn. */
  function SpacesThenGroup(s: string, b: nat, k: nat, least: nat): (r: Option<string>)
    requires b + k <= |s|
    ensures IsGroupOf(r, s)
    ensures r.Some? ==> least <= k
    decreases k
  {
    if k < least then None
    else if GroupAt(s, b + k).Some? then GroupAt(s, b + k)
    else if k == least then None
    else SpacesThenGroup(s, b, k - 1, least)
  }

  /** `(?:что|,)?\s*(.+)` at position `a`. */
  function OptionalThenGroup(s: string, a: nat): (r: Option<string>)
    requires a <= |s|
    ensures IsGroupOf(r, s)
  {
    var viaWord := if OccursAt(s, "что", a) then AfterWord(s, a, 3) else None;
    var viaComma := if OccursAt(s, ",", a) then AfterWord(s, a, 1) else None;
    if viaWord.Some? then viaWord
    else if viaComma.Some? then viaComma
    else AfterWord(s, a, 0)
  }

  /** `\s*(.+)` after `w` characters at `a` (the word, the comma, or nothing). */
  function AfterWord(s: string, a: nat, w: nat): (r: Option<string>)
    requires a <= |s|
    ensures IsGroupOf(r, s)
  {
    if a + w <= |s| then SpacesThenGroup(s, a + w, SpaceRun(s, a + w), 0) else None
  }

  /** `OptionalThenGroup` at every position, failing past the end. */
  function OptionalAt(s: string): nat -> Option<string> {
    (c: nat) => if c <= |s| then OptionalThenGroup(s, c) else None
  }

  /** `\s*` at `q` followed by the optional word and the group, lengths `k` down to 0. */
  function LeadThenRest(s: string, q: nat, k: nat): (r: Option<string>)
    requires q + k <= |s|
    ensures IsGroupOf(r, s)
    decreases k
  {
    var here := OptionalAt(s)(q + k);
    if here.Some? then here
    else if k == 0 then None
    else LeadThenRest(s, q, k - 1)
  }

  datatype Pattern = RememberPattern | CityPattern

  function Keyword(p: Pattern): string {
    match p
    case RememberPattern => "запомни"
    case CityPattern => "погода"
  }

  /** The pattern matched with its literal at position `p`. */
  function MatchAt(pat: Pattern, s: string, p: nat): (r: Option<string>)
    ensures r.Some? ==> OccursAt(s, Keyword(pat), p)
    ensures IsGroupOf(r, s)
  {
    var w := Keyword(pat);
    if !OccursAt(s, w, p) then None
    else
      var q := p + |w|;
      match pat
      case RememberPattern => LeadThenRest(s, q, SpaceRun(s, q))
      case CityPattern => SpacesThenGroup(s, q, SpaceRun(s, q), 1)
  }

  /** `re.search(pattern, s)` from start position `p` on: the captured group.
      A group is found only where the pattern's literal word occurs. */
  function Search(pat: Pattern, s: string, p: nat): (r: Option<string>)
    ensures r.Some? ==> Contains(s, Keyword(pat))
    ensures IsGroupOf(r, s)
    decreases |s| - p
  {
    if p > |s| then None
    else
      var here := MatchAt(pat, s, p);
      if here.Some? then
        ContainsIffOccurs(s, Keyword(pat));
        here
      else Search(pat, s, p + 1)
  }

  /** The greedy `\s*` of `SpacesThenGroup`: it fails only when no length from
      `least` to `k` lets `(.+)` match, and otherwise captures at the longest
      length that does. */
  lemma {:induction false} SpacesThenGroupIsGreedy(s: string, b: nat, k: nat, least: nat)
    requires b + k <= |s|
    ensures SpacesThenGroup(s, b, k, least).None? <==>
              forall c :: b + least <= c <= b + k ==> GroupAt(s, c).None?
    ensures forall c :: b + least <= c <= b + k && GroupAt(s, c).Some? &&
                        (forall c' :: c < c' <= b + k ==> GroupAt(s, c').None?) ==>
              SpacesThenGroup(s, b, k, least) == GroupAt(s, c)
    decreases k
  {
    if least <= k && GroupAt(s, b + k).None? && k != least {
      SpacesThenGroupIsGreedy(s, b, k - 1, least);
    }
  }

  /** `(?:что|,)?` tries the word first, then the comma, then nothing, and the
      first of these after which `\s*(.+)` matches decides the capture. */
  lemma OptionalTriesInOrder(s: string, a: nat)
    requires a <= |s|
    ensures var viaWord := OccursAt(s, "что", a) && AfterWord(s, a, 3).Some?;
            var viaComma := OccursAt(s, ",", a) && AfterWord(s, a, 1).Some?;
            && (viaWord ==> OptionalThenGroup(s, a) == AfterWord(s, a, 3))
            && (!viaWord && viaComma ==> OptionalThenGroup(s, a) == AfterWord(s, a, 1))
            && (!viaWord && !viaComma ==> OptionalThenGroup(s, a) == AfterWord(s, a, 0))
  {
  }

  /** A match at `p` is the pattern's literal followed, for `запомни`, by the
      backtracking `\s*(?:что|,)?\s*(.+)` and, for `погода`, by `\s+(.+)`. */
  lemma MatchAtStages(pat: Pattern, s: string, p: nat)
    ensures !OccursAt(s, Keyword(pat), p) ==> MatchAt(pat, s, p).None?
    ensures OccursAt(s, Keyword(pat), p) && pat.RememberPattern? ==>
              MatchAt(pat, s, p) == LeadThenRest(s, p + 7, SpaceRun(s, p + 7))
    ensures OccursAt(s, Keyword(pat), p) && pat.CityPattern? ==>
              MatchAt(pat, s, p) == SpacesThenGroup(s, p + 6, SpaceRun(s, p + 6), 1)
  {
  }

  /** The first of `f(p)`, `f(p + 1)`, …, `f(hi)` that is a capture. */
  function FirstSome(f: nat -> Option<string>, p: nat, hi: nat): Option<string>
    decreases hi - p
  {
    if p > hi then None
    else if f(p).Some? then f(p)
    else FirstSome(f, p + 1, hi)
  }

  /** A scan from the left fails only when every candidate fails, and
      otherwise yields the leftmost candidate that succeeds. */
  lemma {:induction false} FirstSomeIsLeftmost(f: nat -> Option<string>, p: nat, hi: nat)
    ensures FirstSome(f, p, hi).None? <==> forall c :: p <= c <= hi ==> f(c).None?
    ensures forall c :: p <= c <= hi && f(c).Some? && (forall c' :: p <= c' < c ==> f(c').None?) ==>
              FirstSome(f, p, hi) == f(c)
    decreases hi - p
  {
    if p <= hi && f(p).None? {
      FirstSomeIsLeftmost(f, p + 1, hi);
    }
  }

  /** The first of `f(lo + n)`, `f(lo + n - 1)`, …, `f(lo)` that is a capture. */
  function LastSome(f: nat -> Option<string>, lo: nat, n: nat): Option<string>
    decreases n
  {
    if f(lo + n).Some? then f(lo + n)
    else if n == 0 then None
    else LastSome(f, lo, n - 1)
  }

  /** A scan from the right fails only when every candidate fails, and
      otherwise yields the rightmost candidate that succeeds. */
  lemma {:induction false} LastSomeIsRightmost(f: nat -> Option<string>, lo: nat, n: nat)
    ensures LastSome(f, lo, n).None? <==> forall c :: lo <= c <= lo + n ==> f(c).None?
    ensures forall c :: lo <= c <= lo + n && f(c).Some? && (forall c' :: c < c' <= lo + n ==> f(c').None?) ==>
              LastSome(f, lo, n) == f(c)
    decreases n
  {
    if f(lo + n).None? && n != 0 {
      LastSomeIsRightmost(f, lo, n - 1);
    }
  }

  lemma {:induction false} LeadThenRestIsLastSome(s: string, q: nat, k: nat)
    requires q + k <= |s|
    ensures LeadThenRest(s, q, k) == LastSome(OptionalAt(s), q, k)
    decreases k
  {
    var f := OptionalAt(s);
    var here := f(q + k);
    if here.Some? {
      assert LeadThenRest(s, q, k) == here;
    } else if k == 0 {
      assert LeadThenRest(s, q, k) == None;
    } else {
      assert LeadThenRest(s, q, k) == LeadThenRest(s, q, k - 1);
      LeadThenRestIsLastSome(s, q, k - 1);
    }
  }

  /** The greedy leading `\s*` of the `запомни` pattern backtracks from the
      longest length down to none: it fails only when no length lets the rest
      match, and otherwise captures at the longest length that does. */
  lemma LeadThenRestIsGreedy(s: string, q: nat, k: nat)
    requires q + k <= |s|
    ensures LeadThenRest(s, q, k).None? <==>
              forall c :: q <= c <= q + k ==> OptionalThenGroup(s, c).None?
    ensures forall c :: q <= c <= q + k && OptionalThenGroup(s, c).Some? &&
                        (forall c' :: c < c' <= q + k ==> OptionalThenGroup(s, c').None?) ==>
              LeadThenRest(s, q, k) == OptionalThenGroup(s, c)
  {
    var f := OptionalAt(s);
    LeadThenRestIsLastSome(s, q, k);
    LastSomeIsRightmost(f, q, k);
    assert forall c: nat :: c <= |s| ==> f(c) == OptionalThenGroup(s, c);
    forall c | q <= c <= q + k && OptionalThenGroup(s, c).Some? &&
               (forall c' :: c < c' <= q + k ==> OptionalThenGroup(s, c').None?)
      ensures LeadThenRest(s, q, k) == OptionalThenGroup(s, c)
    {
      assert forall c' :: c < c' <= q + k ==> f(c').None?;
    }
  }

  /** `MatchAt` at every start. */
  function MatchFrom(pat: Pattern, s: string): nat -> Option<string> {
    (c: nat) => MatchAt(pat, s, c)
  }

  lemma {:induction false} SearchIsFirstSome(pat: Pattern, s: string, p: nat)
    ensures Search(pat, s, p) == FirstSome(MatchFrom(pat, s), p, |s|)
    decreases |s| - p
  {
    if p <= |s| && MatchAt(pat, s, p).None? {
      SearchIsFirstSome(pat, s, p + 1);
    }
  }

  /** `re.search` finds the leftmost start at which the pattern matches, and
      nothing only when it matches at no start. */
  lemma SearchIsLeftmost(pat: Pattern, s: string, p: nat)
    ensures Search(pat, s, p).None? <==> forall p' :: p <= p' <= |s| ==> MatchAt(pat, s, p').None?
    ensures forall p' :: p <= p' <= |s| && MatchAt(pat, s, p').Some? &&
                         (forall p'' :: p <= p'' < p' ==> MatchAt(pat, s, p'').None?) ==>
              Search(pat, s, p) == MatchAt(pat, s, p')
  {
    var f := MatchFrom(pat, s);
    SearchIsFirstSome(pat, s, p);
    FirstSomeIsLeftmost(f, p, |s|);
    assert forall c: nat :: f(c) == MatchAt(pat, s, c);
    forall p' | p <= p' <= |s| && MatchAt(pat, s, p').Some? &&
                (forall p'' :: p <= p'' < p' ==> MatchAt(pat, s, p'').None?)
      ensures Search(pat, s, p) == MatchAt(pat, s, p')
    {
      assert forall c :: p <= c < p' ==> f(c).None?;
    }
  }

  /** `запомни ` followed by a one-line fact that starts with neither `что` nor
      a comma captures exactly that fact. */
  lemma RememberPlainFact(t: string)
    requires t != [] && !IsSpace(t[0]) && '\n' !in t
    requires !StartsWith(t, "что") && !StartsWith(t, ",")
    ensures Search(RememberPattern, "запомни " + t, 0) == Some(t)
  {
    var s := "запомни " + t;
    assert s[..7] == "запомни";
    assert OccursAt(s, "запомни", 0);
    assert s[8] == t[0];
    assert SpaceRun(s, 8) == 0;
    assert SpaceRun(s, 7) == 1;
    assert s[8..|s|] == t;
    assert !OccursAt(s, "что", 8);
    assert !OccursAt(s, ",", 8);
    LineEndNoNewline(s, 8);
    assert GroupAt(s, 8) == Some(t);
    assert SpacesThenGroup(s, 8, 0, 0) == Some(t);
    assert AfterWord(s, 8, 0) == Some(t);
    assert OptionalThenGroup(s, 8) == Some(t);
    assert OptionalAt(s)(8) == Some(t);
    assert LeadThenRest(s, 7, 1) == Some(t);
    assert MatchAt(RememberPattern, s, 0) == Some(t);
  }

  /** The usage hint's own example keeps the word `что`: after `запомни,` the
      optional part has consumed the comma, and `что` becomes part of the fact. */
  lemma RememberCommaKeepsWord(t: string)
    requires '\n' !in t
    ensures Search(RememberPattern, "запомни, что " + t, 0) == Some("что " + t)
  {
    var s := "запомни, что " + t;
    var g := "что " + t;
    assert s[..7] == "запомни";
    assert OccursAt(s, "запомни", 0);
    assert s[7] == ',' && s[8] == ' ' && s[9] == 'ч';
    assert SpaceRun(s, 7) == 0;
    assert !OccursAt(s, "что", 7);
    assert OccursAt(s, ",", 7);
    assert SpaceRun(s, 9) == 0;
    assert SpaceRun(s, 8) == 1;
    assert s[9..|s|] == g;
    LineEndNoNewline(s, 9);
    assert GroupAt(s, 9) == Some(g);
    assert SpacesThenGroup(s, 8, 1, 0) == Some(g);
    assert AfterWord(s, 7, 1) == Some(g);
    assert OptionalThenGroup(s, 7) == Some(g);
    assert OptionalAt(s)(7) == Some(g);
    assert LeadThenRest(s, 7, 0) == Some(g);
    assert MatchAt(RememberPattern, s, 0) == Some(g);
  }

  lemma {:induction false} LineEndNoNewline(s: string, c: nat)
    requires c <= |s| && forall j :: c <= j < |s| ==> s[j] != '\n'
    ensures LineEnd(s, c) == |s|
    decreases |s| - c
  {
    if c < |s| {
      LineEndNoNewline(s, c + 1);
    }
  }

  // ---------------------------------------------------------------------------
  // The handlers.

  /** What a turn knows besides the message: the clock (as a timestamp and as the
      texts `strftime` would produce) and the outcome of the random choice. */
  datatype Context = Context(now: int, pick: nat, clockText: string, dateText: string)

  /** `random.choice(variants)`. */
  function Choose(variants: seq<string>, pick: nat): (r: string)
    requires variants != []
    ensures r in variants
  {
    variants[pick % |variants|]
  }

  /** The name the greeting and the farewell use, if the profile has a non-empty one. */
  function GivenName(profile: UserProfile): Option<string> {
    if profile.firstName.Some? && profile.firstName.value != "" then profile.firstName else None
  }

  /** `_remember_info`: store the captured fact, stripped, under its first fifty characters. */
  function Remember(k: Knowledge, message: string, userId: int, now: int): (r: (string, Knowledge))
    requires DistinctKeys(k.learnedFacts)
    ensures DistinctKeys(r.1.learnedFacts)
    ensures r.1 == k.(learnedFacts := r.1.learnedFacts)
    ensures Search(RememberPattern, Lower(message), 0).None? ==> r == (RememberUsageText, k)
    ensures Search(RememberPattern, Lower(message), 0).Some? ==>
              var fact := Strip(Search(RememberPattern, Lower(message), 0).value);
              var key := if |fact| <= 50 then fact else fact[..50];
              && r.0 == RememberedText(fact)
              && Get(r.1.learnedFacts, key) == Some(LearnedFact(fact, now, userId))
              && forall other :: other != key ==> Get(r.1.learnedFacts, other) == Get(k.learnedFacts, other)
  {
    match Search(RememberPattern, Lower(message), 0)
    case None => (RememberUsageText, k)
    case Some(group) =>
      var fact := Strip(group);
      var key := if |fact| <= 50 then fact else fact[..50];
      (RememberedText(fact), k.(learnedFacts := Put(k.learnedFacts, key, LearnedFact(fact, now, userId))))
  }

  /** The first stored question found inside the lower-cased message, from `from` on. */
  function FirstContained(qna: Dict<string>, lowered: string, from: nat): (r: Option<nat>)
    requires from <= |qna|
    ensures r.Some? ==> from <= r.value < |qna| && Contains(lowered, qna[r.value].0)
    ensures r.Some? ==> forall j :: from <= j < r.value ==> !Contains(lowered, qna[j].0)
    ensures r.None? ==> forall j :: from <= j < |qna| ==> !Contains(lowered, qna[j].0)
    decreases |qna| - from
  {
    if from == |qna| then None
    else if Contains(lowered, qna[from].0) then Some(from)
    else FirstContained(qna, lowered, from + 1)
  }

  /** `_recall_info`: a random remembered fact; with none, the answer of the first
      stored question the message contains; with none of those, an apology. */
  function Recall(k: Knowledge, message: string, pick: nat): (r: string)
    ensures k.learnedFacts != [] ==>
              exists i :: 0 <= i < |k.learnedFacts| && r == RecalledText(k.learnedFacts[i].1.fact)
    ensures k.learnedFacts == [] ==>
              forall i :: (0 <= i < |k.qna| && Contains(Lower(message), k.qna[i].0) &&
                           (forall j :: 0 <= j < i ==> !Contains(Lower(message), k.qna[j].0))) ==> r == k.qna[i].1
    ensures k.learnedFacts == [] && (forall i :: 0 <= i < |k.qna| ==> !Contains(Lower(message), k.qna[i].0)) ==>
              r == RecallEmptyText
  {
    if k.learnedFacts != [] then
      RecalledText(k.learnedFacts[pick % |k.learnedFacts|].1.fact)
    else
      match FirstContained(k.qna, Lower(message), 0)
      case Some(i) => k.qna[i].1
      case None => RecallEmptyText
  }

  /** The handler bound to a rule, run on the message: its reply and the document
      afterwards. `profile` is the profile as fetched before this message was
      counted; `k` already counts it. */
  function RunHandler(h: Handler, k: Knowledge, message: string, profile: UserProfile,
                      autoCorrection: bool, ctx: Context): (r: (string, Knowledge))
    requires Valid(k)
    ensures Valid(r.1)
    ensures h != RememberInfo ==> r.1 == k
    ensures h == RememberInfo ==> r == Remember(k, message, profile.userId, ctx.now)
  {
    var stats := k.statistics;
    match h
    case Greet =>
      var reply := match GivenName(profile)
        case Some(name) => Choose(NameGreetings(name), ctx.pick)
        case None => Choose(Greetings, ctx.pick);
      (reply, k)
    case Goodbye =>
      var farewell := Choose(Farewells, ctx.pick);
      var reply := match GivenName(profile)
        case Some(name) => NamedFarewell(name, farewell)
        case None => farewell;
      (reply, k)
    case HowAreYou => (Choose(HowAreYouReplies, ctx.pick), k)
    case ThankYou => (Choose(ThankYouReplies, ctx.pick), k)
    case AboutMe => (AboutMeText(k.facts["имя"], k.facts["версия"], k.facts["цель"]), k)
    case AboutCreator => (k.facts["создатель"], k)
    case Help => (HelpText, k)
    case Time => (TimeText(ctx.clockText), k)
    case Date => (DateText(ctx.dateText), k)
    case RememberInfo => Remember(k, message, profile.userId, ctx.now)
    case RecallInfo => (Recall(k, message, ctx.pick), k)
    case ClearMemory => (ClearMemoryText, k)
    case HowILearn =>
      (HowILearnText(autoCorrection, stats["learned_qna"], stats["corrections_received"],
                     stats["total_messages"], TotalUsers(k)), k)
    case WeatherPrompt => (WeatherHandlerText, k)
    case Stats =>
      (StatsText(stats["total_messages"], stats["learned_qna"], TotalUsers(k),
                 profile.totalMessages, profile.learnedContributions, profile.conversationCount), k)
    case Currency => (CurrencyText, k)
    case News => (NewsText, k)
    case Joke => (JokeText(Choose(Jokes, ctx.pick)), k)
  }

  /** The random replies are always among the handler's declared variants. */
  lemma RandomRepliesAreDeclared(k: Knowledge, message: string, profile: UserProfile,
                                 autoCorrection: bool, ctx: Context)
    requires Valid(k)
    ensures RunHandler(Greet, k, message, profile, autoCorrection, ctx).0 in
              (if GivenName(profile).Some? then NameGreetings(GivenName(profile).value) else Greetings)
    ensures GivenName(profile).None? ==> RunHandler(Goodbye, k, message, profile, autoCorrection, ctx).0 in Farewells
    ensures GivenName(profile).Some? ==>
              exists f :: f in Farewells &&
                RunHandler(Goodbye, k, message, profile, autoCorrection, ctx).0 == NamedFarewell(GivenName(profile).value, f)
    ensures RunHandler(HowAreYou, k, message, profile, autoCorrection, ctx).0 in HowAreYouReplies
    ensures RunHandler(ThankYou, k, message, profile, autoCorrection, ctx).0 in ThankYouReplies
  {
    var f := Choose(Farewells, ctx.pick);
    assert f in Farewells;
  }

  /** A message that only says "remember that" stores nothing: the capture
      pattern knows only the Russian command word. */
  lemma RememberNeedsRussianCommand(k: Knowledge, message: string, userId: int, now: int)
    requires DistinctKeys(k.learnedFacts)
    requires !Contains(Lower(message), "запомни")
    ensures Remember(k, message, userId, now) == (RememberUsageText, k)
  {
  }
}
