# Nix AI core, modelled in Dafny

Nix AI is a Telegram chat bot. Its core, the class `NixAICore` in `main.py`,
answers one user message at a time. First it fetches or creates the
sender's profile and counts the message. If the message answers a question
the bot asked to be taught, it stores that answer. Otherwise it answers
from a fixed table of eighteen phrase rules, else from its learned
question/answer table (QnA), else (in principle) from a weather lookup. If
none of these answers and its confidence is low, it asks to be taught;
otherwise it gives a random fallback reply. An answer given by a rule or
from the QnA table is counted in an interaction telemetry keyed by the
question's two smallest keywords, when the question has at least two
keywords; corrections, requests to be taught and fallback replies are not
counted. Users can also ask the bot to remember a fact (`запомни …`) and
to recall one.

The project has two layers:

- Specification functions on values describe each operation of the core:
  - keyword extraction, the QnA matcher and the confidence score;
  - the rule table and its dispatch;
  - the handlers, with the two capture patterns of `_remember_info` and of
    the weather branch;
  - the profile operations and the telemetry;
  - the weather lookup and its cache, and the weather icon;
  - one whole turn of `process_message` (`Engine.Turn`).
- The class `Core.NixAICore` keeps the knowledge document, the weather
  configuration, the learning modes and the weather cache as fields and
  updates them in place, as the source does. Each of its methods is proved
  to leave exactly the state, and return exactly the result, that the
  matching specification function describes. Its loops (rule dispatch, the
  QnA matcher's two scans, the confidence maximum, the recall scan) carry
  their own invariants.

The lemmas state what the source promises, and also what it does that its
authors may not have meant:

- The weather branch of `process_message` can never be reached.
- Patterns match inside words ("this" is a greeting).
- "remember that" in English never stores anything.
- An empty message is answered with the first stored answer.
- A correction credits the user, but there is no global
  `learned_contributions` counter.
- The second fog keyword of the icon ladder can never decide.

Files:

| file | module | contents |
|---|---|---|
| wrappers.dfy | Wrappers | `Option` |
| text.dfy | Text | `str` operations: lower-casing, `in`, `strip`, `\s`/`\w`, string order, `str(int)` |
| dicts.dfy | Dicts | insertion-ordered string-keyed dictionaries |
| keywords.dfy | Keywords | `_extract_keywords` |
| qna.dfy | QnA | `_check_qna_match`, `_calculate_confidence` |
| knowledge.dfy | KnowledgeBase | the knowledge document, profiles, statistics, telemetry |
| replies.dfy | Replies | the bot's fixed reply texts |
| rules.dfy | Rules | the rule table, capture patterns, handlers |
| weather.dfy | Weather | `get_weather`, `_get_weather_icon` |
| engine.dfy | Engine | `process_message` as a function of the state |
| core.dfy | Core | the class `NixAICore` with its in-place methods |

Time is an integer number of microseconds, the resolution of Python's
`datetime`. The model takes one time, `ctx.now`, per turn and uses it for
every stamp of that turn. The results of `random.choice` are a parameter:
`pick` selects the variant `pick % n`.

## Model

| member | source | states |
|---|---|---|
| Text.LowerChar | main.py:525 | the model's case table: `A`–`Z` and `А`–`Я` move 32 code points to their small letters, `Ѐ`–`Џ` move 80, every other character is kept, and no capital is left |
| Text.LowerCharInjectiveOnCapitals | main.py:525 | no two capitals lower to the same letter |
| Text.Lower | main.py:525 | the model's lower-casing keeps the length and lowers each character by `LowerChar`, on its own |
| Text.LessEq | main.py:673 | the string order `sorted` uses; `LessEqTotal`, `LessEqTransitive` and `LessEqAntisymmetric` state it is a total order |
| Text.LessEqTotal | main.py:673 | any two strings are comparable |
| Text.LessEqTransitive | main.py:673 | the string order is transitive |
| Text.LessEqAntisymmetric | main.py:673 | two strings each at most the other are equal |
| Text.Strip | main.py:362 | `strip()` is the text with a leading and a trailing whitespace run removed: the text is those runs around the result, the result has no whitespace at either end, and it is empty exactly when the text is all whitespace |
| Text.ContainsIffOccurs | main.py:533 | the `in` test on strings holds exactly when the needle occurs at some position |
| Dicts.Get | main.py:528-529 | a key lookup finds nothing exactly when no entry has that key, otherwise the entry's value |
| Dicts.Put | main.py:600 | assignment stores the value under the key, leaves every other key's value, keeps keys distinct, and replaces in place or appends at the end |
| Keywords.Tokens | main.py:553 | `re.findall(r'\b\w+\b', ...)`; `TokensAreWords` and `TokensSplitAtSeparator` state what it finds |
| Keywords.KeepKeywords | main.py:554 | the stop-word and length filter; `KeepKeywordsMembers` and `KeepKeywordsAppend` state what it keeps and in which order |
| Keywords.ExtractKeywords | main.py:546-554 | `_extract_keywords`; `ExtractKeywordsFilter` and `ExtractKeywordsSplit` state which words it returns and in which order |
| Keywords.TokensAreWords | main.py:553 | every token found by `\b\w+\b` is a non-empty run of word characters |
| Keywords.TokensSplitAtSeparator | main.py:553 | a non-word character splits the token list into the tokens of each side |
| Keywords.KeepKeywordsMembers | main.py:554 | the filter keeps exactly the tokens that are not stop words and longer than two characters |
| Keywords.KeepKeywordsAppend | main.py:554 | the filter keeps token order |
| Keywords.ExtractKeywordsFilter | main.py:546-554 | a word is a keyword iff it is a token of the lower-cased text, not a stop word and longer than two characters |
| Keywords.ExtractKeywordsSplit | main.py:546-554 | keywords of two texts joined by a separator are the keywords of each, in order |
| QnA.FirstRelated | main.py:532-534 | the containment scan returns the first question inside the message or containing it; none means no question is related |
| QnA.FirstOverlap | main.py:537-542 | the keyword scan returns the first question sharing at least two distinct keywords; none means no question does |
| QnA.QnaMatch | main.py:523-544 | exact key first, else the first related question's answer, else the first two-keyword overlap's answer; nothing exactly when all three stages fail |
| QnA.QnaMatchAnswersFromTable | main.py:523-544 | every answer the matcher returns is a stored answer |
| QnA.EmptyMessageGetsFirstAnswer | main.py:532-534 | the empty message is inside every question, so it gets the first stored answer |
| QnA.CommonSize | main.py:571-572 | the shared keywords are no more than either side's keywords |
| QnA.Similarity | main.py:571-572 | the similarity is between 0 and 1, and 1 only when the shared keywords are as many as the entries of each list |
| QnA.BestSimilarity | main.py:565-575 | the running maximum of the loop is a score between 0 and 1 |
| QnA.BestSimilarityIsMaximum | main.py:565-575 | the loop computes the maximum: no question with keywords scores higher, and the result is 0 or some question's score |
| QnA.RatioBounds | main.py:572 | a shared count divided by the larger keyword count is between 0 and 1, and 1 only when they are equal |
| QnA.BestSimilarityStep | main.py:566-573 | one iteration of the loop: a question without keywords is skipped, otherwise the maximum is taken |
| QnA.Confidence | main.py:556-575 | 0.9 for an exact key, 0 without keywords, otherwise the best similarity; always between 0 and 1 |
| KnowledgeBase.DefaultKnowledgeValid | main.py:151-179 | the first-start document holds the counters and facts the core indexes, distinct keys, and a user count equal to the number of profiles |
| KnowledgeBase.Overwrite | main.py:202-207 | a stored name is replaced only by a given non-empty name |
| KnowledgeBase.EnsureProfile | main.py:192-220 | a known user keeps counters and gets non-empty names refreshed; a new user starts with one conversation and bumps `total_users`; the profile is stamped and saved under its id |
| KnowledgeBase.EnsureProfileIdempotent | main.py:192-220 | meeting the same user again changes no statistic and no set of users, only the activity stamp |
| KnowledgeBase.EnsureProfileKeepsInvariants | main.py:192-228 | profile creation keeps the document valid and the user counter equal to the number of profiles |
| KnowledgeBase.BumpProfile | main.py:235-243 | exactly the named per-user counter grows by one; names and id kept; stamped |
| KnowledgeBase.UpdateUserStats | main.py:230-249 | a known user's named counter grows; the global counter of that name grows only if it already exists |
| KnowledgeBase.UpdateUserStatsKeepsInvariants | main.py:230-249 | the update keeps the document valid, the statistic names, the set of users and the user count |
| KnowledgeBase.ContributionHasNoGlobalCounter | main.py:246-247 | with no global `learned_contributions` counter, a contribution credits the user and changes no statistic |
| KnowledgeBase.Insert | main.py:673 | inserting into a sorted list gives a sorted permutation with the element added |
| KnowledgeBase.Sort | main.py:673 | `sorted` yields an ordered permutation of the keywords |
| KnowledgeBase.SortedPermutationsEqual | main.py:673 | two ordered arrangements of the same strings are equal |
| KnowledgeBase.SortIsUnique | main.py:673 | `Sort` is `sorted`: it equals every ordered permutation of its input |
| KnowledgeBase.TelemetryKey | main.py:673 | the bucket name `" ".join(sorted(keywords)[:2])`; `TelemetryKeyIsTwoSmallest` states which keywords it names |
| KnowledgeBase.TelemetryKeyIsTwoSmallest | main.py:673 | the bucket is named by the two smallest keywords, smallest first, all others sorting after them |
| KnowledgeBase.Learn | main.py:669-684 | the telemetry update touches nothing but the interaction statistics |
| KnowledgeBase.LearnCountsOnce | main.py:669-684 | with two or more keywords exactly one count (bucket, answer) grows by one and no other changes; otherwise nothing changes |
| KnowledgeBase.LearnIgnoresCase | main.py:671 | the telemetry does not depend on the question's letter case |
| Rules.AnyOccursIff | main.py:613-614 | an alternation of literal phrases is found iff one of its phrases occurs in the text |
| Rules.FirstRule | main.py:613-621 | the rule loop stops at the first rule from the start position whose pattern is found |
| Rules.Dispatch | main.py:613-621 | the chosen rule's pattern is found and no earlier one's; no rule exactly when no pattern is found |
| Rules.WeatherWordsAlwaysDispatched | main.py:109 | any message with a weather word is taken by a rule no later than the weather-prompt rule |
| Rules.NoEmptyAlternative | main.py:95-114 | no alternative of any pattern is empty |
| Rules.GreetingInsideAWord | main.py:96 | patterns are unanchored: "this" is dispatched to the greeting rule |
| Rules.DefaultQuestionsShadowed | main.py:100-101 | two of the default QnA questions are always taken by rules |
| Rules.SpaceRun | main.py:360 | `\s*` at a position covers exactly the maximal whitespace run there |
| Rules.LineEnd | main.py:360 | `.` stops at the end of the line |
| Rules.GroupAt | main.py:360 | `(.+)` matches iff the position starts a non-empty line remainder, and then captures exactly the text from there to the end of the line |
| Rules.SpacesThenGroup | main.py:360 | any capture of `\s{least,}(.+)` is a non-empty part of one line of the text, found only when `least` spaces are available |
| Rules.SpacesThenGroupIsGreedy | main.py:360 | the whitespace repetition fails only when no length from its minimum to the whole run lets `(.+)` match, and otherwise captures at the longest length that does |
| Rules.OptionalThenGroup | main.py:360 | any capture after `(?:что\|,)?\s*` is a non-empty part of one line of the text |
| Rules.OptionalTriesInOrder | main.py:360 | `(?:что\|,)?` tries the word, then the comma, then nothing, and the first that lets the rest match decides |
| Rules.LeadThenRest | main.py:360 | any capture after the leading `\s*` is a non-empty part of one line of the text |
| Rules.LeadThenRestIsGreedy | main.py:360 | the leading `\s*` fails only when no length lets the rest match, and otherwise captures at the longest length that does |
| Rules.MatchAt | main.py:360 | a match at a position starts with the pattern's literal word, and its capture is a non-empty part of one line |
| Rules.MatchAtStages | main.py:360 | a match at a position is the literal followed by the backtracking `\s*(?:что\|,)?\s*(.+)` for `запомни`, and by `\s+(.+)` for `погода` |
| Rules.Search | main.py:360 | a search captures something only where the literal word occurs, and the capture is a non-empty one-line part of the text |
| Rules.SearchIsLeftmost | main.py:360 | `re.search` fails only when the pattern matches at no start, and otherwise returns the capture of the leftmost start that matches |
| Rules.RememberPlainFact | main.py:358-364 | `запомни <fact>` captures exactly the fact when the fact starts with neither `что` nor a comma |
| Rules.RememberCommaKeepsWord | main.py:377 | the usage hint's own form `запомни, что <fact>` captures `что <fact>` |
| Rules.Choose | main.py:271 | `random.choice` returns one of the variants |
| Rules.Remember | main.py:358-377 | without a capture the usage hint is returned and nothing is stored; otherwise the stripped fact is stored under its first fifty characters, learned by the user now, with all other facts kept |
| Rules.FirstContained | main.py:387-389 | the recall scan finds the first question contained in the message |
| Rules.Recall | main.py:379-391 | a remembered fact when there are any; otherwise the answer of the first question the message contains; otherwise the apology |
| Rules.RunHandler | main.py:253-443 | every handler keeps the document valid; only `_remember_info` changes it |
| Rules.GivenName | main.py:282 | the name the greeting and the farewell use: the profile's first name when it is non-empty; `RandomRepliesAreDeclared` states its use |
| Rules.RandomRepliesAreDeclared | main.py:253-302 | greeting, how-are-you and thank-you replies are among their declared variants; the farewell is a declared variant, addressed by name when the user has a non-empty first name |
| Rules.RememberNeedsRussianCommand | main.py:360 | without `запомни` in the message, remembering stores nothing and answers with the usage hint |
| Weather.GetWeather | main.py:445-478 | a fresh entry is served unchanged; no key gives the key message; only a 200 answer changes the cache, storing it under the lower-cased city; 404, other statuses and exceptions give their messages |
| Weather.CacheHitIgnoresProvider | main.py:451-454 | within the cache window the provider's answer does not matter |
| Weather.SecondLookupWithinWindowIsCached | main.py:445-470 | a second lookup of the same city in any case within 30 minutes returns the first answer and keeps the cache |
| Weather.LookupAfterWindowRequeries | main.py:451-454 | after 30 minutes the provider is asked again |
| Weather.FailedLookupIsNotCached | main.py:466-478 | a failed lookup leaves the cache as it was, so the next lookup asks the provider again |
| Weather.WeatherIcon | main.py:502-519 | each icon is chosen iff its keyword is in the lower-cased description and no earlier one is; the default icon iff none of the keywords is |
| Weather.FogSecondKeywordRedundant | main.py:514 | any description with `тумано` also contains `туман` |
| Engine.IsCorrectionTurn | main.py:591-595 | the correction branch is taken when the message is flagged as a correction and carries a non-empty question; `TurnByCorrection` states what such a turn does |
| Engine.WeatherIntent | main.py:634 | the weather-word test on the lower-cased message; `WeatherIntentUnreachable` states that it never decides a turn |
| Engine.ApplyCorrection | main.py:591-610 | the answer is stored under the lower-cased question, other answers kept; learned and correction counters grow by one; the user's `learned_contributions` grows by one, and the global one only if it exists; every other profile, every other field and every other statistic is kept |
| Engine.RuleAnswer | main.py:613-621 | a rule answer keeps the cache, statistics, profiles and QnA and asks for no follow-up |
| Engine.Unmatched | main.py:623-667 | without a weather word the cache is untouched and no city is asked for; statistics, profiles and QnA unchanged |
| Engine.Unanswered | main.py:632-667 | without a weather word the cache is untouched and no city is asked for |
| Engine.TeachOrFallback | main.py:653-667 | asks to be taught, carrying the question, iff confidence is below the threshold with auto-correction on; otherwise a declared fallback with no follow-up |
| Engine.WeatherIntentAnswer | main.py:634-650 | the city after `погода` is looked up, otherwise a city is asked for |
| Engine.Answer | main.py:612-667 | answering keeps the document valid and the statistics, profiles and QnA unchanged |
| Engine.Admit | main.py:582-588 | admission keeps the document valid and the QnA, facts learned and telemetry unchanged |
| Engine.Turn | main.py:577-667 | a turn keeps the document valid |
| Engine.TurnByCorrection | main.py:577-610 | a turn with a pending question, after admitting the sender, stores the correction and confirms it |
| Engine.TurnByAnswer | main.py:577-589 | any other turn, after admitting the sender, is answered by the rule, QnA and fallback steps |
| Engine.TurnCountsMessage | main.py:583-588 | every message is counted once globally and for its sender |
| Engine.TurnKeepsUsersCounted | main.py:192-249 | the user counter stays equal to the number of profiles |
| Engine.CorrectionStoresAnswer | main.py:591-610 | a correction stores the answer, counts it globally and for the user, counts the message for the user without opening a new conversation, confirms, and keeps facts, telemetry and cache |
| Engine.CorrectionKeepsOtherUsers | main.py:582-610 | a correction adds at most the sender to the users and leaves every other user's profile as it was |
| Engine.CorrectionKeepsOtherStatistics | main.py:582-610 | a correction adds at most `total_users` to the statistic names and changes no statistic other than the message, user, learned-answer, correction and contribution counters |
| Engine.CorrectionRoundTrip | main.py:591-630 | after a correction, asking the question in any letter case returns the stored answer unless a rule claims it |
| Engine.FirstMatchingRuleAnswers | main.py:612-621 | the first matching rule answers through its handler and the exchange is counted in the telemetry |
| Engine.AnswerByRule | main.py:613-621 | a dispatched message is answered by its rule |
| Engine.AnswerWithoutRule | main.py:623-667 | a message no rule takes goes on to the QnA table |
| Engine.UnmatchedByStoredAnswer | main.py:624-631 | a non-empty stored answer is returned and counted |
| Engine.UnmatchedByConfidence | main.py:652-667 | without a stored answer or weather word the confidence test decides |
| Engine.WeatherIntentUnreachable | main.py:633-650 | no turn ever changes the weather cache or asks for a city: the weather branch is dead |
| Engine.AnswerKeepsCache | main.py:612-650 | answering never touches the cache nor asks for a city |
| Engine.AnyOccursInEmpty | main.py:613-614 | only an empty alternative is found in the empty text |
| Engine.EmptyMessageMatchesNoRule | main.py:613-614 | no rule takes the empty message |
| Engine.EmptyMessageGetsFirstStoredAnswer | main.py:623-631 | the empty message is answered with the first stored answer |
| Engine.LowConfidenceAsksToBeTaught | main.py:653-660 | without rule or stored answer and with low confidence, the bot asks to be taught and stores nothing |
| Engine.TaughtAnswerIsStored | main.py:591-660 | answering a request to be taught makes the answer the exact match for the question |
| Engine.EnglishRememberStoresNothing | main.py:105 | "remember that" reaches the remember rule but stores nothing and returns the usage hint |
| Core.NixAICore.constructor | main.py:88-125 | the loaded document or the default one, the loaded or default weather configuration, the default learning modes and an empty cache |
| Core.NixAICore.SaveUserProfile | main.py:222-228 | the profile is stored under its own id |
| Core.NixAICore.GetOrCreateUserProfile | main.py:192-220 | in-place profile creation or refresh equals `EnsureProfile` |
| Core.NixAICore.UpdateUserStats | main.py:230-249 | the in-place counter update equals `UpdateUserStats` |
| Core.NixAICore.RememberInfo | main.py:358-377 | the in-place fact store equals `Remember` |
| Core.NixAICore.RecallInfo | main.py:379-391 | the recall loop returns what `Recall` describes |
| Core.NixAICore.Handle | main.py:614-615 | the rule's handler method updates the state as `RunHandler` does |
| Core.NixAICore.CheckQnaMatch | main.py:523-544 | the matcher's loops return what `QnaMatch` describes |
| Core.NixAICore.CalculateConfidence | main.py:556-575 | the maximum loop returns `Confidence` |
| Core.NixAICore.LearnFromInteraction | main.py:669-684 | the in-place telemetry update equals `Learn` |
| Core.NixAICore.GetWeather | main.py:445-478 | the lookup returns the text and leaves the cache `GetWeather` describes, and touches nothing else |
| Core.NixAICore.ProcessMessage | main.py:577-610 | the whole turn leaves the state and returns the outcome `Turn` describes |
| Core.NixAICore.AnswerMessage | main.py:612-621 | the rule loop and what follows it equal `Answer` |
| Core.NixAICore.AnswerUnmatched | main.py:623-667 | the steps after the rules equal `Unmatched`; the weather branch is proved dead |

## Left out

- The Telegram bot (`NixAITelegramBot`), its commands, keyboards, callbacks and state machine are not part of this model; neither is `main`.
- Reading and writing `knowledge.json` and `weather_config.json` are left out; the constructor takes the loaded document and configuration as parameters. An unreadable file is modelled as an absent one.
- Core.NixAICore.constructor: requires a loaded document to be valid: it has the statistics `total_messages`, `learned_qna` and `corrections_received` and the four default facts, and its entries and profiles are keyed consistently. The source accepts any parsed JSON (main.py:127-137) and fails later with `KeyError` on a document lacking them (main.py:308-316, main.py:402-404, main.py:424-425, main.py:602-603); every document the program itself writes is valid.
- The HTTP request and `_format_weather_data` are left out: the provider's answer (status and formatted text, or an exception's text) is a parameter of `get_weather`.
- The clock is left out: `now`, and the texts `strftime` would produce, are parameters. The source reads `datetime.now()` afresh at each stamp (main.py:218, main.py:243, main.py:370), so the stamps of one turn can differ by microseconds; the model stamps a whole turn with the one time `ctx.now`.
- Randomness is left out: `random.choice` is modelled by a `pick` parameter, and the lemmas state only that the reply is one of the declared variants.
- `async`/`await` and concurrency are not modelled: a turn runs to completion before the next.
- Text.Lower: covers Latin and basic Cyrillic capitals, not all of Unicode's case table. Python's `str.lower()` is not always one character to one: `'İ'.lower()` is two code points, and a capital sigma lowers to `ς` at the end of a word and to `σ` elsewhere; the model's `LowerChar` maps every character on its own and keeps the length. Capitals outside the table (`É`, Greek, the Cyrillic supplement) are kept as they are, so user text holding them is not lower-cased as Python would lower it. The exact-key lookup, the containment stage and the keywords then differ for such messages.
- Text.IsWordChar: covers only Latin letters, ASCII digits, `_` and the Cyrillic letters of U+0400–U+04FF. Python's `\w` on `str` is every alphanumeric character and `_`. A user message holding other word characters (`é`, `ß`, Greek, CJK, non-ASCII digits) is split differently by Keywords.Tokens: "café" gives the token "caf" in the model where `re.findall(r'\b\w+\b', ...)` gives "café". Keywords.ExtractKeywords, and through it the QnA keyword stage, QnA.Confidence and the telemetry key, then differ from the source for such messages. Every literal of the core uses only the covered characters. The whitespace class `Text.IsSpace`, by contrast, is complete: it is Python's whole `str.isspace()` set, which `\s` and `strip()` use on `str`.
- `first_start`, `memory`, `learned_phrases` and the profile's `preferences` are written but never read by the core; they are left out of the document.
- The `learning_modes` entry `ask_before_learning` is carried but never read, as in the source.
- KnowledgeBase.UserProfile: `last_active` is an integer timestamp rather than an ISO text.
- Rules.Remember: `learned_by` is always the user id, because `process_message` always passes a profile; the `None` case cannot arise.
- Core.NixAICore.ProcessMessage: the source's one method is split into three (`ProcessMessage`, `AnswerMessage`, `AnswerUnmatched`) at its phase boundaries, to keep each proof small.
- Core.NixAICore.AnswerUnmatched: the weather-intent branch has no statements of its own; it is proved unreachable there, and `Engine.WeatherIntentAnswer` models what it would do.
- Clearing the memory through the bot's `/clearmemory` command is not part of the core; the `_clear_memory` handler only returns a hint.
- Statistics counters are unbounded integers, as Python's are.
