/** The knowledge document the core keeps in memory (`NixAICore.knowledge`):
    the bot's own facts, the global counters, the QnA table, the user
    profiles, the facts users asked it to remember and the interaction
    telemetry; with the profile operations (`get_or_create_user_profile`,
    `update_user_stats`) and the telemetry update (`_learn_from_interaction`). */
module KnowledgeBase {
  import opened Wrappers
  import opened Text
  import opened Dicts
  import opened Keywords

  /** `UserProfile`; `last_active` is a timestamp, `preferences` is never read. */
  datatype UserProfile = UserProfile(
    userId: int,
    username: Option<string>,
    firstName: Option<string>,
    lastName: Option<string>,
    conversationCount: int,
    totalMessages: int,
    learnedContributions: int,
    lastActive: int)

  /** An entry of `learned_facts`: the fact, when and by whom it was learned. */
  datatype LearnedFact = LearnedFact(fact: string, learnedAt: int, learnedBy: int)

  /** The in-memory knowledge document. User profiles are keyed by the user id
      (the document keys them by its decimal text, which is one-to-one). */
  datatype Knowledge = Knowledge(
    facts: map<string, string>,
    statistics: map<string, int>,
    qna: Dict<string>,
    userProfiles: map<int, UserProfile>,
    learnedFacts: Dict<LearnedFact>,
    interactionStats: map<string, map<string, int>>)

  /** The document written on first start. */
  const DefaultKnowledge: Knowledge := Knowledge(
    map["создатель" := "Меня создал Аслан",
        "имя" := "Nix AI",
        "версия" := "0.1 (Telegram Edition)",
        "цель" := "Помогать людям в Telegram"],
    map["total_conversations" := 0,
        "total_messages" := 0,
        "learned_qna" := 0,
        "corrections_received" := 0,
        "total_users" := 0],
    [("что такое python", "Python — это язык программирования"),
     ("что такое искусственный интеллект", "ИИ — это система, имитирующая человеческий интеллект"),
     ("как тебя зовут", "Меня зовут Nix AI"),
     ("кто создал тебя", "Меня создал разработчик, который хочет сделать полезного ИИ")],
    map[],
    [],
    map[])

  /** What the core indexes without a default: the three counters it bumps by
      subscript and the four facts it reads; the two ordered tables have
      distinct keys and every profile is stored under its own id. */
  predicate Valid(k: Knowledge) {
    && "total_messages" in k.statistics
    && "learned_qna" in k.statistics
    && "corrections_received" in k.statistics
    && "имя" in k.facts && "версия" in k.facts && "цель" in k.facts && "создатель" in k.facts
    && DistinctKeys(k.qna)
    && DistinctKeys(k.learnedFacts)
    && forall id :: id in k.userProfiles ==> k.userProfiles[id].userId == id
  }

  /** `statistics.get("total_users", 0)`. */
  function TotalUsers(k: Knowledge): int {
    if "total_users" in k.statistics then k.statistics["total_users"] else 0
  }

  /** The user counter agrees with the number of stored profiles. */
  predicate UsersCounted(k: Knowledge) {
    TotalUsers(k) == |k.userProfiles|
  }

  lemma DefaultKnowledgeValid()
    ensures Valid(DefaultKnowledge) && UsersCounted(DefaultKnowledge)
    ensures DefaultKnowledge.statistics.Keys ==
            {"total_conversations", "total_messages", "learned_qna", "corrections_received", "total_users"}
  {
  }

  /** A name field of a stored profile after a message: replaced only by a non-empty value. */
  function Overwrite(stored: Option<string>, given: Option<string>): (r: Option<string>)
    ensures given.Some? && given.value != "" ==> r == given
    ensures !(given.Some? && given.value != "") ==> r == stored
  {
    if given.Some? && given.value != "" then given else stored
  }

  /** `get_or_create_user_profile`: the document afterwards and the profile handed
      to the handlers. A known user keeps its counters and gets its non-empty
      names refreshed; a new user starts with one conversation and bumps the
      user counter. Either way the profile is stamped with `now` and saved
      under its own user id. */
  function EnsureProfile(k: Knowledge, id: int, username: Option<string>, firstName: Option<string>,
                         lastName: Option<string>, now: int): (r: (Knowledge, UserProfile))
    ensures r.1.lastActive == now
    ensures r.0.userProfiles == k.userProfiles[r.1.userId := r.1]
    ensures id in k.userProfiles ==>
              var p := k.userProfiles[id];
              && r.1.userId == p.userId
              && r.0.statistics == k.statistics
              && r.1.conversationCount == p.conversationCount
              && r.1.totalMessages == p.totalMessages
              && r.1.learnedContributions == p.learnedContributions
              && r.1.username == Overwrite(p.username, username)
              && r.1.firstName == Overwrite(p.firstName, firstName)
              && r.1.lastName == Overwrite(p.lastName, lastName)
    ensures id !in k.userProfiles ==>
              && r.0.statistics == k.statistics["total_users" := TotalUsers(k) + 1]
              && r.1 == UserProfile(id, username, firstName, lastName, 1, 0, 0, now)
    ensures r.0.facts == k.facts && r.0.qna == k.qna && r.0.learnedFacts == k.learnedFacts
    ensures r.0.interactionStats == k.interactionStats
  {
    if id in k.userProfiles then
      var p := k.userProfiles[id];
      var p' := p.(username := Overwrite(p.username, username),
                   firstName := Overwrite(p.firstName, firstName),
                   lastName := Overwrite(p.lastName, lastName),
                   lastActive := now);
      (k.(userProfiles := k.userProfiles[p'.userId := p']), p')
    else
      var p := UserProfile(id, username, firstName, lastName, 1, 0, 0, now);
      (k.(userProfiles := k.userProfiles[id := p],
          statistics := k.statistics["total_users" := TotalUsers(k) + 1]), p)
  }

  /** Meeting the same user again changes nothing but the activity stamp: the
      user counter was bumped once, and the profile keeps its counters and names. */
  lemma EnsureProfileIdempotent(k: Knowledge, id: int, username: Option<string>, firstName: Option<string>,
                                lastName: Option<string>, now: int, later: int)
    requires Valid(k)
    ensures var (k1, p1) := EnsureProfile(k, id, username, firstName, lastName, now);
            var (k2, p2) := EnsureProfile(k1, id, username, firstName, lastName, later);
            && k2.statistics == k1.statistics
            && k2.userProfiles.Keys == k1.userProfiles.Keys
            && p2 == p1.(lastActive := later)
  {
  }

  /** Creating or refreshing a profile keeps the document valid and the user counter exact. */
  lemma EnsureProfileKeepsInvariants(k: Knowledge, id: int, username: Option<string>, firstName: Option<string>,
                                     lastName: Option<string>, now: int)
    requires Valid(k)
    ensures Valid(EnsureProfile(k, id, username, firstName, lastName, now).0)
    ensures UsersCounted(k) ==> UsersCounted(EnsureProfile(k, id, username, firstName, lastName, now).0)
  {
    var r := EnsureProfile(k, id, username, firstName, lastName, now).0;
    if id !in k.userProfiles {
      assert r.userProfiles.Keys == k.userProfiles.Keys + {id};
    } else {
      assert r.userProfiles.Keys == k.userProfiles.Keys;
    }
  }

  /** The per-user counters `update_user_stats` knows by name. */
  function BumpProfile(p: UserProfile, field: string, now: int): (r: UserProfile)
    ensures r.userId == p.userId && r.lastActive == now
    ensures r.totalMessages == p.totalMessages + (if field == "total_messages" then 1 else 0)
    ensures r.learnedContributions == p.learnedContributions + (if field == "learned_contributions" then 1 else 0)
    ensures r.conversationCount == p.conversationCount + (if field == "conversation_count" then 1 else 0)
    ensures r.username == p.username && r.firstName == p.firstName && r.lastName == p.lastName
  {
    var q :=
      if field == "total_messages" then p.(totalMessages := p.totalMessages + 1)
      else if field == "learned_contributions" then p.(learnedContributions := p.learnedContributions + 1)
      else if field == "conversation_count" then p.(conversationCount := p.conversationCount + 1)
      else p;
    q.(lastActive := now)
  }

  /** `update_user_stats(user_id, field)`: bumps the user's counter of that name
      when the user is known, and the global counter of that name only when the
      statistics already hold one. */
  function UpdateUserStats(k: Knowledge, id: int, field: string, now: int): (r: Knowledge)
    ensures id in k.userProfiles ==> r.userProfiles == k.userProfiles[id := BumpProfile(k.userProfiles[id], field, now)]
    ensures id !in k.userProfiles ==> r.userProfiles == k.userProfiles
    ensures field in k.statistics ==> r.statistics == k.statistics[field := k.statistics[field] + 1]
    ensures field !in k.statistics ==> r.statistics == k.statistics
    ensures r.facts == k.facts && r.qna == k.qna && r.learnedFacts == k.learnedFacts
    ensures r.interactionStats == k.interactionStats
  {
    var profiles :=
      if id in k.userProfiles then k.userProfiles[id := BumpProfile(k.userProfiles[id], field, now)]
      else k.userProfiles;
    var stats :=
      if field in k.statistics then k.statistics[field := k.statistics[field] + 1]
      else k.statistics;
    k.(userProfiles := profiles, statistics := stats)
  }

  /** Bumping a counter keeps the document valid, the set of users and their count. */
  lemma UpdateUserStatsKeepsInvariants(k: Knowledge, id: int, field: string, now: int)
    requires Valid(k)
    ensures var r := UpdateUserStats(k, id, field, now);
            && Valid(r)
            && r.statistics.Keys == k.statistics.Keys
            && r.userProfiles.Keys == k.userProfiles.Keys
            && (field != "total_users" ==> TotalUsers(r) == TotalUsers(k))
            && (UsersCounted(k) && field != "total_users" ==> UsersCounted(r))
  {
  }

  /** A correction credits the user but no global counter: the default document
      has no `learned_contributions` counter, so that statistic stays as it was. */
  lemma ContributionHasNoGlobalCounter(k: Knowledge, id: int, now: int)
    requires "learned_contributions" !in k.statistics
    requires id in k.userProfiles
    ensures var r := UpdateUserStats(k, id, "learned_contributions", now);
            && r.statistics == k.statistics
            && r.userProfiles[id].learnedContributions == k.userProfiles[id].learnedContributions + 1
  {
  }

  // ---------------------------------------------------------------------------
  // Telemetry: `sorted(keywords)[:2]` names the bucket an answer is counted in.

  predicate Sorted(s: seq<string>) {
    forall i, j :: 0 <= i < j < |s| ==> LessEq(s[i], s[j])
  }

  /** Insert `x` into a sorted sequence. */
  function Insert(x: string, s: seq<string>): (r: seq<string>)
    requires Sorted(s)
    ensures Sorted(r)
    ensures multiset(r) == multiset(s) + multiset{x}
    ensures |r| == |s| + 1
  {
    if s == [] then [x]
    else if LessEq(x, s[0]) then
      assert forall j :: 0 <= j < |s| ==> LessEq(x, s[j]) by {
        forall j | 0 <= j < |s| ensures LessEq(x, s[j]) {
          if j > 0 {
            LessEqTransitive(x, s[0], s[j]);
          }
        }
      }
      [x] + s
    else
      var rest := Insert(x, s[1..]);
      LessEqTotal(x, s[0]);
      assert s == [s[0]] + s[1..];
      assert forall j :: 0 <= j < |rest| ==> LessEq(s[0], rest[j]) by {
        forall j | 0 <= j < |rest| ensures LessEq(s[0], rest[j]) {
          assert rest[j] in multiset(rest);
          if rest[j] != x {
            assert rest[j] in multiset(s[1..]);
            var m :| 0 <= m < |s[1..]| && s[1..][m] == rest[j];
            assert s[m + 1] == rest[j];
          }
        }
      }
      [s[0]] + rest
  }

  /** Python's `sorted` on strings, as an insertion sort. */
  function Sort(s: seq<string>): (r: seq<string>)
    ensures Sorted(r)
    ensures multiset(r) == multiset(s)
    ensures |r| == |s|
  {
    if s == [] then []
    else
      assert s == [s[0]] + s[1..];
      Insert(s[0], Sort(s[1..]))
  }

  /** Two sorted orderings of the same strings are the same sequence. */
  lemma {:induction false} SortedPermutationsEqual(a: seq<string>, b: seq<string>)
    requires Sorted(a) && Sorted(b) && multiset(a) == multiset(b)
    ensures a == b
    decreases |a|
  {
    if a == [] {
      assert |multiset(b)| == 0;
    } else {
      SortedHeadsEqual(a, b);
      SortedTail(a);
      SortedTail(b);
      SortedPermutationsEqual(a[1..], b[1..]);
      assert a == [a[0]] + a[1..] && b == [b[0]] + b[1..];
    }
  }

  /** The least element comes first in every sorted ordering. */
  lemma SortedHeadsEqual(a: seq<string>, b: seq<string>)
    requires Sorted(a) && Sorted(b) && multiset(a) == multiset(b) && a != []
    ensures b != [] && a[0] == b[0]
  {
    assert a[0] in multiset(b);
    var j :| 0 <= j < |b| && b[j] == a[0];
    assert b[0] in multiset(a);
    var i :| 0 <= i < |a| && a[i] == b[0];
    if i > 0 && j > 0 {
      LessEqAntisymmetric(a[0], b[0]);
    }
  }

  lemma SortedTail(a: seq<string>)
    requires Sorted(a) && a != []
    ensures Sorted(a[1..])
    ensures multiset(a[1..]) == multiset(a) - multiset{a[0]}
  {
    assert a == [a[0]] + a[1..];
  }

  /** `Sort` is Python's `sorted`: the one ordered arrangement of the keywords. */
  lemma SortIsUnique(s: seq<string>, t: seq<string>)
    requires Sorted(t) && multiset(t) == multiset(s)
    ensures Sort(s) == t
  {
    SortedPermutationsEqual(Sort(s), t);
  }

  /** `" ".join(sorted(keywords)[:2])`. */
  function TelemetryKey(keywords: seq<string>): string
    requires |keywords| >= 2
  {
    var s := Sort(keywords);
    s[0] + " " + s[1]
  }

  /** The bucket is named by the two smallest keywords, smallest first: both are
      keywords (twice the same one only if it occurs twice) and every other
      keyword sorts after them. */
  lemma TelemetryKeyIsTwoSmallest(keywords: seq<string>)
    requires |keywords| >= 2
    ensures exists a, b ::
              && TelemetryKey(keywords) == a + " " + b
              && multiset{a, b} <= multiset(keywords)
              && LessEq(a, b)
              && forall w :: w in multiset(keywords) - multiset{a, b} ==> LessEq(b, w)
  {
    var s := Sort(keywords);
    SortedRestAfterSecond(s);
    assert TelemetryKey(keywords) == s[0] + " " + s[1];
  }

  /** In a sorted sequence everything after the first two sorts after the second. */
  lemma SortedRestAfterSecond(s: seq<string>)
    requires Sorted(s) && |s| >= 2
    ensures multiset{s[0], s[1]} <= multiset(s)
    ensures forall w :: w in multiset(s) - multiset{s[0], s[1]} ==> LessEq(s[1], w)
  {
    var a, b := s[0], s[1];
    assert s == [a, b] + s[2..];
    assert multiset(s) == multiset{a, b} + multiset(s[2..]);
    forall w | w in multiset(s) - multiset{a, b} ensures LessEq(b, w) {
      assert w in multiset(s[2..]);
      var m :| 0 <= m < |s[2..]| && s[2..][m] == w;
      assert s[m + 2] == w;
    }
  }


  /** How often `answer` was given in the bucket `key`. */
  function Count(stats: map<string, map<string, int>>, key: string, answer: string): int {
    if key in stats && answer in stats[key] then stats[key][answer] else 0
  }

  /** `_learn_from_interaction(question, answer, user_id)`: with at least two
      keywords in the question, count one more `answer` in its bucket. */
  function Learn(k: Knowledge, question: string, answer: string): (r: Knowledge)
    ensures r.facts == k.facts && r.statistics == k.statistics && r.qna == k.qna
    ensures r.userProfiles == k.userProfiles && r.learnedFacts == k.learnedFacts
  {
    var keywords := ExtractKeywords(Lower(question));
    if |keywords| >= 2 then
      var key := TelemetryKey(keywords);
      var bucket := if key in k.interactionStats then k.interactionStats[key] else map[];
      var n := if answer in bucket then bucket[answer] else 0;
      k.(interactionStats := k.interactionStats[key := bucket[answer := n + 1]])
    else k
  }

  /** The telemetry counts exactly one more `answer` under the question's bucket
      and leaves every other count alone; questions with fewer than two keywords
      are not counted at all. */
  lemma LearnCountsOnce(k: Knowledge, question: string, answer: string)
    ensures var keywords := ExtractKeywords(Lower(question));
            var r := Learn(k, question, answer);
            && (|keywords| < 2 ==> r == k)
            && (|keywords| >= 2 ==>
                  var key := TelemetryKey(keywords);
                  && Count(r.interactionStats, key, answer) == Count(k.interactionStats, key, answer) + 1
                  && forall key', answer' :: (key', answer') != (key, answer) ==>
                       Count(r.interactionStats, key', answer') == Count(k.interactionStats, key', answer'))
  {
  }

  /** The lower-casing inside the telemetry is the one keyword extraction applies anyway. */
  lemma LearnIgnoresCase(k: Knowledge, question: string, answer: string)
    ensures Learn(k, question, answer) == Learn(k, Lower(question), answer)
  {
    LowerIdempotent(question);
  }
}
