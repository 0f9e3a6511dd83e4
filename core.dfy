/** `NixAICore` as an object: its knowledge document, weather configuration,
    learning modes and weather cache are fields that the operations update in
    place. Each operation is proved to produce the state and result that the
    corresponding function of the specification modules describes. */
module Core {
  import opened Wrappers
  import opened Text
  import opened Dicts
  import opened Keywords
  import opened QnA
  import opened Replies
  import opened KnowledgeBase
  import opened Rules
  import opened Weather
  import opened Engine

  class NixAICore {
    var knowledge: Knowledge
    var weatherConfig: WeatherConfig
    var learningModes: LearningModes
    var weatherCache: Cache

    predicate Valid()
      reads this
    {
      KnowledgeBase.Valid(knowledge)
    }

    /** `__init__`: `stored` is the document read from disk, absent when there is
        none or it cannot be read; `config` likewise for the weather settings. */
    constructor (stored: Option<Knowledge>, config: Option<WeatherConfig>)
      requires stored.Some? ==> KnowledgeBase.Valid(stored.value)
      ensures Valid()
      ensures knowledge == (if stored.Some? then stored.value else DefaultKnowledge)
      ensures weatherConfig == (if config.Some? then config.value else DefaultConfig)
      ensures learningModes == DefaultModes && weatherCache == map[]
    {
      DefaultKnowledgeValid();
      knowledge := if stored.Some? then stored.value else DefaultKnowledge;
      weatherConfig := if config.Some? then config.value else DefaultConfig;
      learningModes := DefaultModes;
      weatherCache := map[];
    }

    /** `_save_user_profile`. */
    method SaveUserProfile(profile: UserProfile)
      requires Valid()
      modifies this
      ensures Valid()
      ensures knowledge == old(knowledge).(userProfiles := old(knowledge).userProfiles[profile.userId := profile])
      ensures unchanged(this`weatherConfig, this`learningModes, this`weatherCache)
    {
      knowledge := knowledge.(userProfiles := knowledge.userProfiles[profile.userId := profile]);
    }

    /** `get_or_create_user_profile`. */
    method GetOrCreateUserProfile(userId: int, username: Option<string>, firstName: Option<string>,
                                  lastName: Option<string>, now: int) returns (profile: UserProfile)
      requires Valid()
      modifies this
      ensures Valid()
      ensures (knowledge, profile) == EnsureProfile(old(knowledge), userId, username, firstName, lastName, now)
      ensures unchanged(this`weatherConfig, this`learningModes, this`weatherCache)
    {
      EnsureProfileKeepsInvariants(knowledge, userId, username, firstName, lastName, now);
      if userId in knowledge.userProfiles {
        profile := knowledge.userProfiles[userId];
        if username.Some? && username.value != "" && username != profile.username {
          profile := profile.(username := username);
        }
        if firstName.Some? && firstName.value != "" && firstName != profile.firstName {
          profile := profile.(firstName := firstName);
        }
        if lastName.Some? && lastName.value != "" && lastName != profile.lastName {
          profile := profile.(lastName := lastName);
        }
      } else {
        profile := UserProfile(userId, username, firstName, lastName, 1, 0, 0, now);
        knowledge := knowledge.(statistics := knowledge.statistics["total_users" := TotalUsers(knowledge) + 1]);
      }
      profile := profile.(lastActive := now);
      SaveUserProfile(profile);
    }

    /** `update_user_stats`. */
    method UpdateUserStats(userId: int, field: string, now: int)
      requires Valid()
      modifies this
      ensures Valid()
      ensures knowledge == KnowledgeBase.UpdateUserStats(old(knowledge), userId, field, now)
      ensures unchanged(this`weatherConfig, this`learningModes, this`weatherCache)
    {
      UpdateUserStatsKeepsInvariants(knowledge, userId, field, now);
      if userId in knowledge.userProfiles {
        var p := knowledge.userProfiles[userId];
        if field == "total_messages" {
          p := p.(totalMessages := p.totalMessages + 1);
        } else if field == "learned_contributions" {
          p := p.(learnedContributions := p.learnedContributions + 1);
        } else if field == "conversation_count" {
          p := p.(conversationCount := p.conversationCount + 1);
        }
        p := p.(lastActive := now);
        knowledge := knowledge.(userProfiles := knowledge.userProfiles[userId := p]);
      }
      if field in knowledge.statistics {
        knowledge := knowledge.(statistics := knowledge.statistics[field := knowledge.statistics[field] + 1]);
      }
    }

    /** `_remember_info`. */
    method RememberInfo(message: string, profile: UserProfile, now: int) returns (reply: string)
      requires Valid()
      modifies this
      ensures Valid()
      ensures (reply, knowledge) == Remember(old(knowledge), message, profile.userId, now)
      ensures unchanged(this`weatherConfig, this`learningModes, this`weatherCache)
    {
      var found := Search(RememberPattern, Lower(message), 0);
      if found.Some? {
        var fact := Strip(found.value);
        var key := if |fact| <= 50 then fact else fact[..50];
        knowledge := knowledge.(learnedFacts := Put(knowledge.learnedFacts, key, LearnedFact(fact, now, profile.userId)));
        reply := RememberedText(fact);
      } else {
        reply := RememberUsageText;
      }
    }

    /** `_recall_info`: the search of the QnA table is the source's loop. */
    method RecallInfo(message: string, pick: nat) returns (reply: string)
      ensures reply == Recall(knowledge, message, pick)
    {
      var facts := knowledge.learnedFacts;
      if facts != [] {
        reply := RecalledText(facts[pick % |facts|].1.fact);
        return;
      }
      var qna := knowledge.qna;
      var lowered := Lower(message);
      var i := 0;
      while i < |qna|
        invariant 0 <= i <= |qna|
        invariant forall j :: 0 <= j < i ==> !Contains(lowered, qna[j].0)
      {
        if Contains(lowered, qna[i].0) {
          reply := qna[i].1;
          return;
        }
        i := i + 1;
      }
      reply := RecallEmptyText;
    }

    /** The handler of a rule, as the method the rule table names. */
    method Handle(h: Handler, message: string, profile: UserProfile, ctx: Context) returns (reply: string)
      requires Valid()
      modifies this
      ensures Valid()
      ensures (reply, knowledge) == RunHandler(h, old(knowledge), message, profile, learningModes.autoCorrection, ctx)
      ensures unchanged(this`weatherConfig, this`learningModes, this`weatherCache)
    {
      if h.RememberInfo? {
        reply := RememberInfo(message, profile, ctx.now);
      } else if h.RecallInfo? {
        reply := RecallInfo(message, ctx.pick);
      } else {
        reply := RunHandler(h, knowledge, message, profile, learningModes.autoCorrection, ctx).0;
      }
    }

    /** `_check_qna_match`: the exact key, then the two loops over the table. */
    method CheckQnaMatch(message: string) returns (r: Option<string>)
      ensures r == QnaMatch(knowledge.qna, message)
    {
      var qna := knowledge.qna;
      var lowered := Lower(message);
      var direct := Get(qna, lowered);
      if direct.Some? {
        return direct;
      }
      var i := 0;
      while i < |qna|
        invariant 0 <= i <= |qna|
        invariant forall j :: 0 <= j < i ==> !Related(qna[j].0, lowered)
      {
        if Related(qna[i].0, lowered) {
          assert IsFirstRelated(qna, lowered, i);
          return Some(qna[i].1);
        }
        i := i + 1;
      }
      var keywords := ExtractKeywords(lowered);
      i := 0;
      while i < |qna|
        invariant 0 <= i <= |qna|
        invariant forall j :: 0 <= j < i ==> !Overlaps(keywords, qna[j].0)
      {
        if Overlaps(keywords, qna[i].0) {
          assert IsFirstOverlap(qna, keywords, i);
          return Some(qna[i].1);
        }
        i := i + 1;
      }
      r := None;
    }

    /** `_calculate_confidence`: the running maximum over the table. */
    method CalculateConfidence(message: string) returns (c: real)
      ensures c == Confidence(knowledge.qna, message)
    {
      var qna := knowledge.qna;
      if Get(qna, Lower(message)).Some? {
        return ExactConfidence;
      }
      var keywords := ExtractKeywords(message);
      if keywords == [] {
        return 0.0;
      }
      var best := 0.0;
      var i := 0;
      while i < |qna|
        invariant 0 <= i <= |qna|
        invariant best == BestSimilarity(keywords, qna[..i])
      {
        BestSimilarityStep(keywords, qna, i);
        var questionKeywords := ExtractKeywords(qna[i].0);
        if questionKeywords != [] {
          var similarity := Similarity(keywords, questionKeywords);
          best := MaxReal(best, similarity);
        }
        i := i + 1;
      }
      assert qna[..|qna|] == qna;
      c := best;
    }

    /** `_learn_from_interaction`. */
    method LearnFromInteraction(question: string, answer: string)
      requires Valid()
      modifies this
      ensures Valid()
      ensures knowledge == Learn(old(knowledge), question, answer)
      ensures unchanged(this`weatherConfig, this`learningModes, this`weatherCache)
    {
      var keywords := ExtractKeywords(Lower(question));
      if |keywords| >= 2 {
        var key := TelemetryKey(keywords);
        var stats := knowledge.interactionStats;
        var bucket := if key in stats then stats[key] else map[];
        var count := if answer in bucket then bucket[answer] else 0;
        stats := stats[key := bucket[answer := count + 1]];
        knowledge := knowledge.(interactionStats := stats);
      }
    }

    /** `get_weather`: `now` is the clock and `provider` what the weather service
        answers to this request. */
    method GetWeather(city: string, now: int, provider: ProviderResult) returns (text: string)
      modifies this
      ensures (text, weatherCache) == Weather.GetWeather(old(weatherCache), weatherConfig.apiKey, city, now, provider)
      ensures unchanged(this`knowledge, this`weatherConfig, this`learningModes)
    {
      var cityLower := Lower(city);
      if cityLower in weatherCache {
        var entry := weatherCache[cityLower];
        if now - entry.cachedAt < CacheDuration {
          return entry.text;
        }
      }
      if weatherConfig.apiKey == "" {
        return NoApiKeyText;
      }
      match provider
      case Response(status, formatted) =>
        if status == 200 {
          weatherCache := weatherCache[cityLower := CacheEntry(now, formatted)];
          text := formatted;
        } else if status == 404 {
          text := CityNotFoundText(city);
        } else {
          text := StatusErrorText(status);
        }
      case TransportError(detail) =>
        text := FailureText(detail);
    }

    /** `process_message`: register the user and count the message, store a
        correction when one is pending, otherwise answer. */
    method ProcessMessage(req: Request, ctx: Context, provider: ProviderResult) returns (outcome: Outcome)
      requires Valid()
      modifies this
      ensures Valid()
      ensures (knowledge, weatherCache, outcome) ==
              Turn(old(knowledge), old(weatherCache), learningModes, weatherConfig.apiKey, req, ctx, provider)
      ensures unchanged(this`weatherConfig, this`learningModes)
    {
      ghost var k0 := knowledge;
      var profile := GetOrCreateUserProfile(req.userId, req.username, req.firstName, req.lastName, ctx.now);
      UpdateUserStats(req.userId, "total_messages", ctx.now);
      ghost var admitted := knowledge;
      assert (admitted, profile) == Admit(k0, req, ctx.now);

      if IsCorrectionTurn(req) {
        var question := req.pendingQuestion.value;
        knowledge := knowledge.(qna := Put(knowledge.qna, Lower(question), req.message));
        UpdateUserStats(req.userId, "learned_contributions", ctx.now);
        var stats := knowledge.statistics;
        knowledge := knowledge.(statistics := stats["learned_qna" := stats["learned_qna"] + 1]
                                                   ["corrections_received" := stats["corrections_received"] + 1]);
        assert knowledge == ApplyCorrection(admitted, req.userId, question, req.message, ctx.now);
        TurnByCorrection(k0, weatherCache, learningModes, weatherConfig.apiKey, req, ctx, provider);
        return Outcome(CorrectionText(question, req.message), false, NoAction);
      }
      TurnByAnswer(k0, weatherCache, learningModes, weatherConfig.apiKey, req, ctx, provider);
      outcome := AnswerMessage(req, profile, ctx, provider);
    }

    /** The rest of `process_message`: the first rule whose pattern occurs in the
        lower-cased message answers through its handler. */
    method AnswerMessage(req: Request, profile: UserProfile, ctx: Context, provider: ProviderResult)
      returns (outcome: Outcome)
      requires Valid()
      modifies this
      ensures Valid()
      ensures (knowledge, weatherCache, outcome) ==
              Answer(old(knowledge), old(weatherCache), learningModes, weatherConfig.apiKey, req, profile, ctx, provider)
      ensures unchanged(this`weatherConfig, this`learningModes)
    {
      ghost var k0, cache0 := knowledge, weatherCache;
      var lowered := Lower(req.message);
      var i := 0;
      while i < |RuleTable|
        invariant 0 <= i <= |RuleTable|
        invariant forall j :: 0 <= j < i ==> !Matches(RuleTable[j], lowered)
      {
        if Matches(RuleTable[i], lowered) {
          assert Dispatch(lowered) == Some(i);
          var reply := Handle(RuleTable[i].handler, req.message, profile, ctx);
          LearnFromInteraction(req.message, reply);
          AnswerByRule(k0, cache0, learningModes, weatherConfig.apiKey, req, profile, ctx, provider, i);
          return Outcome(reply, false, NoAction);
        }
        i := i + 1;
      }
      AnswerWithoutRule(k0, cache0, learningModes, weatherConfig.apiKey, req, profile, ctx, provider);
      outcome := AnswerUnmatched(req, ctx, provider);
    }

    /** The steps after the rules: a stored answer, the weather intent (which the
        rules always take first), then a request to be taught or a fallback. */
    method AnswerUnmatched(req: Request, ctx: Context, provider: ProviderResult) returns (outcome: Outcome)
      requires Valid() && Dispatch(Lower(req.message)).None?
      modifies this
      ensures Valid()
      ensures (knowledge, weatherCache, outcome) ==
              Unmatched(old(knowledge), old(weatherCache), learningModes, weatherConfig.apiKey, req, ctx, provider)
      ensures unchanged(this`weatherConfig, this`learningModes)
    {
      ghost var k0, cache0 := knowledge, weatherCache;
      var stored := CheckQnaMatch(req.message);
      if stored.Some? && stored.value != "" {
        UnmatchedByStoredAnswer(k0, cache0, learningModes, weatherConfig.apiKey, req, ctx, provider, stored.value);
        LearnFromInteraction(req.message, stored.value);
        return Outcome(stored.value, false, NoAction);
      }

      var lowered := Lower(req.message);
      if WeatherIntent(lowered) {
        WeatherWordsAlwaysDispatched(lowered);
        assert false;
      }
      UnmatchedByConfidence(k0, cache0, learningModes, weatherConfig.apiKey, req, ctx, provider);

      var confidence := CalculateConfidence(req.message);
      if confidence < learningModes.confidenceThreshold && learningModes.autoCorrection {
        outcome := Outcome(TeachText(req.message), true, CorrectionFollowup(req.message));
      } else {
        outcome := Outcome(Choose(Fallbacks(req.message), ctx.pick), false, NoAction);
      }
    }
  }
}
