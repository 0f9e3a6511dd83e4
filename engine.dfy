/** One message through the core (`NixAICore.process_message`): fetch or create
    the sender's profile and count the message; store a pending correction;
    otherwise answer from the first matching rule, else from the QnA table,
    else (never, as proved below) from the weather intent, else ask to be
    taught when the confidence is low, else with a random fallback. */
module Engine {
  import opened Wrappers
  import opened Text
  import opened Dicts
  import opened QnA
  import opened Replies
  import opened KnowledgeBase
  import opened Rules
  import opened Weather

  /** The `action` of the result; `CorrectionFollowup` carries its `correction_data`. */
  datatype Action = NoAction | WeatherFollowup | CorrectionFollowup(question: string)

  /** The dictionary `process_message` returns. */
  datatype Outcome = Outcome(response: string, needsFollowup: bool, action: Action)

  /** `learning_modes`. */
  datatype LearningModes = LearningModes(autoCorrection: bool, askBeforeLearning: bool, confidenceThreshold: real)

  const DefaultModes: LearningModes := LearningModes(true, false, 0.3)

  /** The arguments of `process_message`; `pendingQuestion` is the `question`
      entry of `correction_data`, absent when there is no such data. */
  datatype Request = Request(
    userId: int,
    message: string,
    username: Option<string>,
    firstName: Option<string>,
    lastName: Option<string>,
    isCorrection: bool,
    pendingQuestion: Option<string>)

  /** The message is the answer to a question the bot asked to be taught. */
  predicate IsCorrectionTurn(req: Request) {
    req.isCorrection && req.pendingQuestion.Some? && req.pendingQuestion.value != ""
  }

  /** The weather-intent test on the lower-cased message. */
  predicate WeatherIntent(lowered: string) {
    Contains(lowered, "погода") || Contains(lowered, "weather") || Contains(lowered, "прогноз")
  }

  /** The correction branch: store the answer under the lower-cased question and
      count one more learned answer and one more correction. */
  function ApplyCorrection(k: Knowledge, userId: int, question: string, answer: string, now: int): (r: Knowledge)
    requires Valid(k)
    ensures Valid(r)
    ensures Get(r.qna, Lower(question)) == Some(answer)
    ensures forall q :: q != Lower(question) ==> Get(r.qna, q) == Get(k.qna, q)
    ensures r.statistics["learned_qna"] == k.statistics["learned_qna"] + 1
    ensures r.statistics["corrections_received"] == k.statistics["corrections_received"] + 1
    ensures r.statistics["total_messages"] == k.statistics["total_messages"]
    ensures r.statistics.Keys == k.statistics.Keys && TotalUsers(r) == TotalUsers(k)
    ensures r.userProfiles.Keys == k.userProfiles.Keys
    ensures userId in k.userProfiles ==>
              r.userProfiles[userId].learnedContributions == k.userProfiles[userId].learnedContributions + 1
    ensures userId in k.userProfiles ==>
              r.userProfiles[userId].totalMessages == k.userProfiles[userId].totalMessages
    ensures userId in k.userProfiles ==>
              r.userProfiles == k.userProfiles[userId := BumpProfile(k.userProfiles[userId], "learned_contributions", now)]
    ensures userId !in k.userProfiles ==> r.userProfiles == k.userProfiles
    ensures "learned_contributions" in k.statistics ==>
              r.statistics["learned_contributions"] == k.statistics["learned_contributions"] + 1
    ensures forall s :: (s in k.statistics && s != "learned_qna" && s != "corrections_received" &&
                         s != "learned_contributions") ==> r.statistics[s] == k.statistics[s]
    ensures r.facts == k.facts && r.learnedFacts == k.learnedFacts && r.interactionStats == k.interactionStats
  {
    var k1 := k.(qna := Put(k.qna, Lower(question), answer));
    var k2 := UpdateUserStats(k1, userId, "learned_contributions", now);
    UpdateUserStatsKeepsInvariants(k1, userId, "learned_contributions", now);
    var stats := k2.statistics;
    k2.(statistics := stats["learned_qna" := stats["learned_qna"] + 1]
                           ["corrections_received" := stats["corrections_received"] + 1])
  }

  /** The rule branch: the handler's reply, counted in the telemetry. */
  function RuleAnswer(k: Knowledge, cache: Cache, modes: LearningModes, req: Request,
                      profile: UserProfile, ctx: Context, i: nat): (r: (Knowledge, Cache, Outcome))
    requires Valid(k) && i < |RuleTable|
    ensures Valid(r.0)
    ensures r.0.statistics == k.statistics && r.0.userProfiles == k.userProfiles && r.0.qna == k.qna
    ensures RuleTable[i].handler != RememberInfo ==> r.0.learnedFacts == k.learnedFacts
    ensures r.1 == cache && r.2.action == NoAction && !r.2.needsFollowup
  {
    var (reply, k') := RunHandler(RuleTable[i].handler, k, req.message, profile, modes.autoCorrection, ctx);
    (Learn(k', req.message, reply), cache, Outcome(reply, false, NoAction))
  }

  /** What follows when no rule matched: a usable stored answer, else the rest. */
  function Unmatched(k: Knowledge, cache: Cache, modes: LearningModes, apiKey: string, req: Request,
                     ctx: Context, provider: ProviderResult): (r: (Knowledge, Cache, Outcome))
    requires Valid(k)
    ensures Valid(r.0)
    ensures r.0.statistics == k.statistics && r.0.userProfiles == k.userProfiles && r.0.qna == k.qna
    ensures r.0.learnedFacts == k.learnedFacts
    ensures !WeatherIntent(Lower(req.message)) ==> r.1 == cache && !r.2.action.WeatherFollowup?
  {
    var stored := QnaMatch(k.qna, req.message);
    if stored.Some? && stored.value != "" then
      (Learn(k, req.message, stored.value), cache, Outcome(stored.value, false, NoAction))
    else
      var (cache', out) := Unanswered(k.qna, cache, modes, apiKey, req.message, ctx, provider);
      (k, cache', out)
  }

  /** No rule and no usable stored answer: the weather intent, else the request
      to be taught when the confidence is low, else a random fallback. */
  function Unanswered(qna: Dict<string>, cache: Cache, modes: LearningModes, apiKey: string, message: string,
                      ctx: Context, provider: ProviderResult): (r: (Cache, Outcome))
    ensures !WeatherIntent(Lower(message)) ==> r.0 == cache && !r.1.action.WeatherFollowup?
  {
    var lowered := Lower(message);
    if WeatherIntent(lowered) then
      WeatherIntentAnswer(cache, apiKey, lowered, ctx.now, provider)
    else
      (cache, TeachOrFallback(qna, modes, message, ctx.pick))
  }

  /** The request to be taught when the confidence is under the threshold and
      automatic learning is on; a random fallback otherwise. */
  function TeachOrFallback(qna: Dict<string>, modes: LearningModes, message: string, pick: nat): (r: Outcome)
    ensures Confidence(qna, message) < modes.confidenceThreshold && modes.autoCorrection ==>
              r == Outcome(TeachText(message), true, CorrectionFollowup(message))
    ensures !(Confidence(qna, message) < modes.confidenceThreshold && modes.autoCorrection) ==>
              r.response in Fallbacks(message) && r.action.NoAction? && !r.needsFollowup
  {
    if Confidence(qna, message) < modes.confidenceThreshold && modes.autoCorrection then
      Outcome(TeachText(message), true, CorrectionFollowup(message))
    else
      Outcome(Choose(Fallbacks(message), pick), false, NoAction)
  }

  /** The weather-intent branch: the city after `погода`, or a prompt for one. */
  function WeatherIntentAnswer(cache: Cache, apiKey: string, lowered: string, now: int,
                               provider: ProviderResult): (r: (Cache, Outcome))
    ensures Search(CityPattern, lowered, 0).None? ==> r == (cache, Outcome(CityPromptText, true, WeatherFollowup))
    ensures Search(CityPattern, lowered, 0).Some? ==>
              var city := Strip(Search(CityPattern, lowered, 0).value);
              r == (GetWeather(cache, apiKey, city, now, provider).1,
                    Outcome(GetWeather(cache, apiKey, city, now, provider).0, false, NoAction))
  {
    match Search(CityPattern, lowered, 0)
    case Some(group) =>
      var (text, cache') := GetWeather(cache, apiKey, Strip(group), now, provider);
      (cache', Outcome(text, false, NoAction))
    case None => (cache, Outcome(CityPromptText, true, WeatherFollowup))
  }

  /** Everything after the correction branch, on the document that already
      counts the message; `profile` is the sender's profile as fetched. */
  function Answer(k: Knowledge, cache: Cache, modes: LearningModes, apiKey: string, req: Request,
                  profile: UserProfile, ctx: Context, provider: ProviderResult): (r: (Knowledge, Cache, Outcome))
    requires Valid(k)
    ensures Valid(r.0)
    ensures r.0.statistics == k.statistics && r.0.userProfiles == k.userProfiles && r.0.qna == k.qna
  {
    match Dispatch(Lower(req.message))
    case Some(i) => RuleAnswer(k, cache, modes, req, profile, ctx, i)
    case None => Unmatched(k, cache, modes, apiKey, req, ctx, provider)
  }

  /** The profile step and the message count that open every turn. */
  function Admit(k: Knowledge, req: Request, now: int): (r: (Knowledge, UserProfile))
    requires Valid(k)
    ensures Valid(r.0)
    ensures r.0.qna == k.qna && r.0.learnedFacts == k.learnedFacts && r.0.interactionStats == k.interactionStats
  {
    var (k1, profile) := EnsureProfile(k, req.userId, req.username, req.firstName, req.lastName, now);
    EnsureProfileKeepsInvariants(k, req.userId, req.username, req.firstName, req.lastName, now);
    UpdateUserStatsKeepsInvariants(k1, req.userId, "total_messages", now);
    (UpdateUserStats(k1, req.userId, "total_messages", now), profile)
  }

  /** `process_message`: the document and the weather cache afterwards, and the result. */
  function Turn(k: Knowledge, cache: Cache, modes: LearningModes, apiKey: string, req: Request,
                ctx: Context, provider: ProviderResult): (r: (Knowledge, Cache, Outcome))
    requires Valid(k)
    ensures Valid(r.0)
  {
    var (k2, profile) := Admit(k, req, ctx.now);
    if IsCorrectionTurn(req) then
      var question := req.pendingQuestion.value;
      (ApplyCorrection(k2, req.userId, question, req.message, ctx.now), cache,
       Outcome(CorrectionText(question, req.message), false, NoAction))
    else
      Answer(k2, cache, modes, apiKey, req, profile, ctx, provider)
  }

  /** A turn that answers a pending question stores the correction. */
  lemma TurnByCorrection(k: Knowledge, cache: Cache, modes: LearningModes, apiKey: string, req: Request,
                         ctx: Context, provider: ProviderResult)
    requires Valid(k) && IsCorrectionTurn(req)
    ensures var question := req.pendingQuestion.value;
            Turn(k, cache, modes, apiKey, req, ctx, provider) ==
              (ApplyCorrection(Admit(k, req, ctx.now).0, req.userId, question, req.message, ctx.now), cache,
               Outcome(CorrectionText(question, req.message), false, NoAction))
  {
  }

  /** Any other turn answers the message for the admitted sender. */
  lemma TurnByAnswer(k: Knowledge, cache: Cache, modes: LearningModes, apiKey: string, req: Request,
                     ctx: Context, provider: ProviderResult)
    requires Valid(k) && !IsCorrectionTurn(req)
    ensures var (k2, profile) := Admit(k, req, ctx.now);
            Turn(k, cache, modes, apiKey, req, ctx, provider) ==
              Answer(k2, cache, modes, apiKey, req, profile, ctx, provider)
  {
  }

  // ---------------------------------------------------------------------------
  // What a turn does, for every input.

  /** Every message is counted once, globally and for its sender (a new sender
      starts from zero), whatever branch answers it. */
  lemma TurnCountsMessage(k: Knowledge, cache: Cache, modes: LearningModes, apiKey: string, req: Request,
                          ctx: Context, provider: ProviderResult)
    requires Valid(k)
    ensures var r := Turn(k, cache, modes, apiKey, req, ctx, provider).0;
            && r.statistics["total_messages"] == k.statistics["total_messages"] + 1
            && req.userId in r.userProfiles
            && r.userProfiles[req.userId].totalMessages ==
                 (if req.userId in k.userProfiles then k.userProfiles[req.userId].totalMessages else 0) + 1
  {
    var (k1, profile) := EnsureProfile(k, req.userId, req.username, req.firstName, req.lastName, ctx.now);
    EnsureProfileKeepsInvariants(k, req.userId, req.username, req.firstName, req.lastName, ctx.now);
    assert k1.userProfiles[req.userId] == profile;
  }

  /** The user counter stays equal to the number of profiles. */
  lemma TurnKeepsUsersCounted(k: Knowledge, cache: Cache, modes: LearningModes, apiKey: string, req: Request,
                              ctx: Context, provider: ProviderResult)
    requires Valid(k) && UsersCounted(k)
    ensures UsersCounted(Turn(k, cache, modes, apiKey, req, ctx, provider).0)
  {
    var (k1, profile) := EnsureProfile(k, req.userId, req.username, req.firstName, req.lastName, ctx.now);
    EnsureProfileKeepsInvariants(k, req.userId, req.username, req.firstName, req.lastName, ctx.now);
    UpdateUserStatsKeepsInvariants(k1, req.userId, "total_messages", ctx.now);
  }

  /** A correction stores the user's answer under the lower-cased question, counts
      it globally and for the user, and confirms; nothing else is answered. */
  lemma CorrectionStoresAnswer(k: Knowledge, cache: Cache, modes: LearningModes, apiKey: string, req: Request,
                               ctx: Context, provider: ProviderResult)
    requires Valid(k) && IsCorrectionTurn(req)
    ensures var (r, cache', out) := Turn(k, cache, modes, apiKey, req, ctx, provider);
            var question := req.pendingQuestion.value;
            && Get(r.qna, Lower(question)) == Some(req.message)
            && (forall q :: q != Lower(question) ==> Get(r.qna, q) == Get(k.qna, q))
            && r.statistics["learned_qna"] == k.statistics["learned_qna"] + 1
            && r.statistics["corrections_received"] == k.statistics["corrections_received"] + 1
            && r.userProfiles[req.userId].learnedContributions ==
                 (if req.userId in k.userProfiles then k.userProfiles[req.userId].learnedContributions else 0) + 1
            && r.userProfiles[req.userId].totalMessages ==
                 (if req.userId in k.userProfiles then k.userProfiles[req.userId].totalMessages else 0) + 1
            && r.userProfiles[req.userId].conversationCount ==
                 (if req.userId in k.userProfiles then k.userProfiles[req.userId].conversationCount else 1)
            && r.learnedFacts == k.learnedFacts && r.interactionStats == k.interactionStats
            && cache' == cache
            && out == Outcome(CorrectionText(question, req.message), false, NoAction)
  {
    var (k1, profile) := EnsureProfile(k, req.userId, req.username, req.firstName, req.lastName, ctx.now);
    EnsureProfileKeepsInvariants(k, req.userId, req.username, req.firstName, req.lastName, ctx.now);
    assert k1.userProfiles[req.userId] == profile;
  }

  /** A correction changes no other user's profile; the sender's is created
      if it was missing. */
  lemma CorrectionKeepsOtherUsers(k: Knowledge, cache: Cache, modes: LearningModes, apiKey: string,
                                  req: Request, ctx: Context, provider: ProviderResult)
    requires Valid(k) && IsCorrectionTurn(req)
    ensures var r := Turn(k, cache, modes, apiKey, req, ctx, provider).0;
            && r.userProfiles.Keys == k.userProfiles.Keys + {req.userId}
            && (forall u :: u in k.userProfiles && u != req.userId ==> r.userProfiles[u] == k.userProfiles[u])
  {
    var k2 := Admit(k, req, ctx.now).0;
    assert k2.userProfiles.Keys == k.userProfiles.Keys + {req.userId} &&
           forall u :: u in k.userProfiles && u != req.userId ==> k2.userProfiles[u] == k.userProfiles[u] by {
      var (k1, profile) := EnsureProfile(k, req.userId, req.username, req.firstName, req.lastName, ctx.now);
      assert k1.userProfiles.Keys == k.userProfiles.Keys + {req.userId};
    }
    TurnByCorrection(k, cache, modes, apiKey, req, ctx, provider);
  }

  /** A correction changes no statistic but the message, learned-answer,
      correction and contribution counters, and adds only the user counter
      when the sender is new. */
  lemma CorrectionKeepsOtherStatistics(k: Knowledge, cache: Cache, modes: LearningModes, apiKey: string,
                                       req: Request, ctx: Context, provider: ProviderResult)
    requires Valid(k) && IsCorrectionTurn(req)
    ensures var r := Turn(k, cache, modes, apiKey, req, ctx, provider).0;
            && r.statistics.Keys == (if req.userId in k.userProfiles then k.statistics.Keys
                                     else k.statistics.Keys + {"total_users"})
            && (forall s :: (s in k.statistics && s != "learned_qna" && s != "corrections_received" &&
                             s != "learned_contributions" && s != "total_messages" && s != "total_users") ==>
                               r.statistics[s] == k.statistics[s])
  {
    var (k1, profile) := EnsureProfile(k, req.userId, req.username, req.firstName, req.lastName, ctx.now);
    EnsureProfileKeepsInvariants(k, req.userId, req.username, req.firstName, req.lastName, ctx.now);
  }

  /** A learned answer is given back: after a correction for a question, asking
      that question (in any letter case) is answered with the stored text, unless
      a rule claims the message first or the answer is empty. */
  lemma CorrectionRoundTrip(k: Knowledge, cache: Cache, modes: LearningModes, apiKey: string,
                            req: Request, ctx: Context, provider: ProviderResult,
                            ask: Request, ctx2: Context, provider2: ProviderResult)
    requires Valid(k) && IsCorrectionTurn(req) && req.message != ""
    requires !IsCorrectionTurn(ask) && Lower(ask.message) == Lower(req.pendingQuestion.value)
    requires Dispatch(Lower(ask.message)).None?
    ensures var (k1, cache1, _) := Turn(k, cache, modes, apiKey, req, ctx, provider);
            Turn(k1, cache1, modes, apiKey, ask, ctx2, provider2).2 == Outcome(req.message, false, NoAction)
  {
    CorrectionStoresAnswer(k, cache, modes, apiKey, req, ctx, provider);
  }

  /** The first rule whose pattern occurs in the lower-cased message answers it
      through its handler; the exchange is then counted in the telemetry. */
  lemma FirstMatchingRuleAnswers(k: Knowledge, cache: Cache, modes: LearningModes, apiKey: string, req: Request,
                                 ctx: Context, provider: ProviderResult, i: nat)
    requires Valid(k) && !IsCorrectionTurn(req)
    requires i < |RuleTable| && Matches(RuleTable[i], Lower(req.message))
    requires forall j :: 0 <= j < i ==> !Matches(RuleTable[j], Lower(req.message))
    ensures var (k2, profile) := Admit(k, req, ctx.now);
            var (reply, k3) := RunHandler(RuleTable[i].handler, k2, req.message, profile, modes.autoCorrection, ctx);
            Turn(k, cache, modes, apiKey, req, ctx, provider) ==
              (Learn(k3, req.message, reply), cache, Outcome(reply, false, NoAction))
  {
    var (k2, profile) := Admit(k, req, ctx.now);
    assert Dispatch(Lower(req.message)) == Some(i);
    AnswerByRule(k2, cache, modes, apiKey, req, profile, ctx, provider, i);
  }

  /** The rule branch of `Answer`, for the rule `Dispatch` chose. */
  lemma AnswerByRule(k: Knowledge, cache: Cache, modes: LearningModes, apiKey: string, req: Request,
                     profile: UserProfile, ctx: Context, provider: ProviderResult, i: nat)
    requires Valid(k) && Dispatch(Lower(req.message)) == Some(i)
    ensures i < |RuleTable|
    ensures Answer(k, cache, modes, apiKey, req, profile, ctx, provider) ==
              RuleAnswer(k, cache, modes, req, profile, ctx, i)
  {
  }
  /** A stored answer for an unmatched message is returned and counted. */
  lemma UnmatchedByStoredAnswer(k: Knowledge, cache: Cache, modes: LearningModes, apiKey: string, req: Request,
                                ctx: Context, provider: ProviderResult, stored: string)
    requires Valid(k) && QnaMatch(k.qna, req.message) == Some(stored) && stored != ""
    ensures Unmatched(k, cache, modes, apiKey, req, ctx, provider) ==
              (Learn(k, req.message, stored), cache, Outcome(stored, false, NoAction))
  {
  }

  /** Without a stored answer or a weather word, the message is left to the
      confidence test. */
  lemma UnmatchedByConfidence(k: Knowledge, cache: Cache, modes: LearningModes, apiKey: string, req: Request,
                              ctx: Context, provider: ProviderResult)
    requires Valid(k) && !WeatherIntent(Lower(req.message))
    requires var stored := QnaMatch(k.qna, req.message); !(stored.Some? && stored.value != "")
    ensures Unmatched(k, cache, modes, apiKey, req, ctx, provider) ==
              (k, cache, TeachOrFallback(k.qna, modes, req.message, ctx.pick))
  {
  }

  /** A message no rule matches goes on to the QnA table. */
  lemma AnswerWithoutRule(k: Knowledge, cache: Cache, modes: LearningModes, apiKey: string, req: Request,
                          profile: UserProfile, ctx: Context, provider: ProviderResult)
    requires Valid(k) && Dispatch(Lower(req.message)).None?
    ensures Answer(k, cache, modes, apiKey, req, profile, ctx, provider) ==
              Unmatched(k, cache, modes, apiKey, req, ctx, provider)
  {
  }


  /** The weather-intent branch cannot be reached: every weather word is also an
      alternative of the weather-prompt rule, which is tried first. So a turn
      never changes the weather cache and never asks for a city. */
  lemma WeatherIntentUnreachable(k: Knowledge, cache: Cache, modes: LearningModes, apiKey: string, req: Request,
                                 ctx: Context, provider: ProviderResult)
    requires Valid(k)
    ensures Turn(k, cache, modes, apiKey, req, ctx, provider).1 == cache
    ensures !Turn(k, cache, modes, apiKey, req, ctx, provider).2.action.WeatherFollowup?
  {
    var (k2, profile) := Admit(k, req, ctx.now);
    if !IsCorrectionTurn(req) {
      AnswerKeepsCache(k2, cache, modes, apiKey, req, profile, ctx, provider);
    }
  }

  lemma AnswerKeepsCache(k: Knowledge, cache: Cache, modes: LearningModes, apiKey: string, req: Request,
                         profile: UserProfile, ctx: Context, provider: ProviderResult)
    requires Valid(k)
    ensures Answer(k, cache, modes, apiKey, req, profile, ctx, provider).1 == cache
    ensures !Answer(k, cache, modes, apiKey, req, profile, ctx, provider).2.action.WeatherFollowup?
  {
    var l := Lower(req.message);
    if Dispatch(l).None? && WeatherIntent(l) {
      WeatherWordsAlwaysDispatched(l);
      assert false;
    }
  }

  /** No pattern occurs in the empty message. */
  lemma EmptyMessageMatchesNoRule()
    ensures Dispatch("").None?
  {
    forall j | 0 <= j < |RuleTable| ensures !Matches(RuleTable[j], "") {
      NoEmptyAlternative(j);
      AnyOccursInEmpty(RuleTable[j].alternatives);
    }
  }

  /** Only an empty alternative occurs in the empty text. */
  lemma {:induction false} AnyOccursInEmpty(alternatives: seq<string>)
    ensures AnyOccurs(alternatives, "") ==> "" in alternatives
  {
    if alternatives != [] {
      AnyOccursInEmpty(alternatives[1..]);
      assert alternatives == [alternatives[0]] + alternatives[1..];
    }
  }

  /** The empty message is inside every stored question, so it is answered with
      the first stored answer. */
  lemma EmptyMessageGetsFirstStoredAnswer(k: Knowledge, cache: Cache, modes: LearningModes, apiKey: string,
                                          req: Request, ctx: Context, provider: ProviderResult)
    requires Valid(k) && !IsCorrectionTurn(req) && req.message == ""
    requires |k.qna| > 0 && Get(k.qna, "").None? && k.qna[0].1 != ""
    ensures Turn(k, cache, modes, apiKey, req, ctx, provider).2 == Outcome(k.qna[0].1, false, NoAction)
  {
    EmptyMessageMatchesNoRule();
    EmptyMessageGetsFirstAnswer(k.qna);
    assert Lower("") == "";
  }

  /** With no rule, no usable stored answer and a confidence under the threshold,
      the bot asks to be taught and stores nothing. */
  lemma LowConfidenceAsksToBeTaught(k: Knowledge, cache: Cache, modes: LearningModes, apiKey: string, req: Request,
                                    ctx: Context, provider: ProviderResult)
    requires Valid(k) && !IsCorrectionTurn(req) && modes.autoCorrection
    requires Dispatch(Lower(req.message)).None?
    requires QnaMatch(k.qna, req.message).None?
    requires Confidence(k.qna, req.message) < modes.confidenceThreshold
    ensures var (r, cache', out) := Turn(k, cache, modes, apiKey, req, ctx, provider);
            && out == Outcome(TeachText(req.message), true, CorrectionFollowup(req.message))
            && r.qna == k.qna && r.learnedFacts == k.learnedFacts && r.interactionStats == k.interactionStats
            && cache' == cache
  {
    var l := Lower(req.message);
    if WeatherIntent(l) {
      WeatherWordsAlwaysDispatched(l);
    }
  }

  /** Teaching closes the loop: when a turn asks to be taught about a non-empty
      message, answering with a correction for that question makes the stored
      answer the exact match for it. */
  lemma TaughtAnswerIsStored(k: Knowledge, cache: Cache, modes: LearningModes, apiKey: string, req: Request,
                             ctx: Context, provider: ProviderResult,
                             answer: Request, ctx2: Context, provider2: ProviderResult)
    requires Valid(k)
    requires Turn(k, cache, modes, apiKey, req, ctx, provider).2.action == CorrectionFollowup(req.message)
    requires req.message != ""
    requires answer.isCorrection && answer.pendingQuestion == Some(req.message)
    ensures var (k1, cache1, _) := Turn(k, cache, modes, apiKey, req, ctx, provider);
            var k2 := Turn(k1, cache1, modes, apiKey, answer, ctx2, provider2).0;
            && Get(k2.qna, Lower(req.message)) == Some(answer.message)
            && QnaMatch(k2.qna, req.message) == Some(answer.message)
  {
    var (k1, cache1, _) := Turn(k, cache, modes, apiKey, req, ctx, provider);
    CorrectionStoresAnswer(k1, cache1, modes, apiKey, answer, ctx2, provider2);
  }

  /** A message that says "remember that" in English reaches the remember rule
      but stores nothing: only the Russian command word is captured. */
  lemma EnglishRememberStoresNothing(k: Knowledge, cache: Cache, modes: LearningModes, apiKey: string, req: Request,
                                     ctx: Context, provider: ProviderResult)
    requires Valid(k) && !IsCorrectionTurn(req)
    requires Dispatch(Lower(req.message)) == Some(RememberRule)
    requires !Contains(Lower(req.message), "запомни")
    ensures var (r, _, out) := Turn(k, cache, modes, apiKey, req, ctx, provider);
            r.learnedFacts == k.learnedFacts && out.response == RememberUsageText
  {
    var (k2, profile) := Admit(k, req, ctx.now);
    RememberNeedsRussianCommand(k2, req.message, profile.userId, ctx.now);
    assert RuleTable[RememberRule].handler == RememberInfo;
    var reply := RunHandler(RememberInfo, k2, req.message, profile, modes.autoCorrection, ctx).0;
    assert reply == RememberUsageText;
    assert RuleAnswer(k2, cache, modes, req, profile, ctx, RememberRule) ==
           (Learn(k2, req.message, reply), cache, Outcome(reply, false, NoAction));
    AnswerByRule(k2, cache, modes, apiKey, req, profile, ctx, provider, RememberRule);
  }
}
