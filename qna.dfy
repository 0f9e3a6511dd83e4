/** The QnA matcher (`NixAICore._check_qna_match`) and the confidence score
    (`NixAICore._calculate_confidence`) over the stored question/answer
    table, in its insertion order. */
module QnA {
  import opened Wrappers
  import opened Text
  import opened Dicts
  import opened Keywords

  /** The containment test of the second stage: either string inside the other. */
  predicate Related(question: string, lowered: string) {
    Contains(lowered, question) || Contains(question, lowered)
  }

  /** Python's `set(ws)`. */
  function AsSet(ws: seq<string>): set<string> {
    set w | w in ws
  }

  /** `set(a) & set(b)`. */
  function Common(a: seq<string>, b: seq<string>): set<string> {
    AsSet(a) * AsSet(b)
  }

  /** The keyword test of the third stage: at least two distinct shared keywords. */
  predicate Overlaps(keywords: seq<string>, question: string) {
    |Common(keywords, ExtractKeywords(question))| >= 2
  }

  predicate IsFirstRelated(qna: Dict<string>, lowered: string, i: int) {
    0 <= i < |qna| && Related(qna[i].0, lowered) &&
    forall j :: 0 <= j < i ==> !Related(qna[j].0, lowered)
  }

  predicate IsFirstOverlap(qna: Dict<string>, keywords: seq<string>, i: int) {
    0 <= i < |qna| && Overlaps(keywords, qna[i].0) &&
    forall j :: 0 <= j < i ==> !Overlaps(keywords, qna[j].0)
  }

  /** The loop of the containment stage, from position `from` on. */
  function FirstRelated(qna: Dict<string>, lowered: string, from: nat): (r: Option<nat>)
    requires from <= |qna|
    ensures r.Some? ==> from <= r.value < |qna| && Related(qna[r.value].0, lowered)
    ensures r.Some? ==> forall j :: from <= j < r.value ==> !Related(qna[j].0, lowered)
    ensures r.None? ==> forall j :: from <= j < |qna| ==> !Related(qna[j].0, lowered)
    decreases |qna| - from
  {
    if from == |qna| then None
    else if Related(qna[from].0, lowered) then Some(from)
    else FirstRelated(qna, lowered, from + 1)
  }

  /** The loop of the keyword stage, from position `from` on. */
  function FirstOverlap(qna: Dict<string>, keywords: seq<string>, from: nat): (r: Option<nat>)
    requires from <= |qna|
    ensures r.Some? ==> from <= r.value < |qna| && Overlaps(keywords, qna[r.value].0)
    ensures r.Some? ==> forall j :: from <= j < r.value ==> !Overlaps(keywords, qna[j].0)
    ensures r.None? ==> forall j :: from <= j < |qna| ==> !Overlaps(keywords, qna[j].0)
    decreases |qna| - from
  {
    if from == |qna| then None
    else if Overlaps(keywords, qna[from].0) then Some(from)
    else FirstOverlap(qna, keywords, from + 1)
  }

  /** `_check_qna_match(msg)`: exact key, else the first related question,
      else the first question sharing two keywords, else nothing. */
  function QnaMatch(qna: Dict<string>, msg: string): (r: Option<string>)
    ensures var l := Lower(msg);
            Get(qna, l).Some? ==> r == Get(qna, l)
    ensures var l := Lower(msg);
            forall i :: Get(qna, l).None? && IsFirstRelated(qna, l, i) ==> r == Some(qna[i].1)
    ensures var l := Lower(msg);
            forall i ::
              (Get(qna, l).None? && (forall j :: 0 <= j < |qna| ==> !Related(qna[j].0, l)) &&
               IsFirstOverlap(qna, ExtractKeywords(l), i)) ==> r == Some(qna[i].1)
    ensures var l := Lower(msg);
            r.None? <==>
              Get(qna, l).None? &&
              (forall j :: 0 <= j < |qna| ==> !Related(qna[j].0, l)) &&
              (forall j :: 0 <= j < |qna| ==> !Overlaps(ExtractKeywords(l), qna[j].0))
  {
    var l := Lower(msg);
    MatchStages(qna, l, ExtractKeywords(l))
  }

  /** The three stages of the matcher on the lower-cased message `l` with keywords `kws`. */
  function MatchStages(qna: Dict<string>, l: string, kws: seq<string>): (r: Option<string>)
    ensures Get(qna, l).Some? ==> r == Get(qna, l)
    ensures forall i :: Get(qna, l).None? && IsFirstRelated(qna, l, i) ==> r == Some(qna[i].1)
    ensures forall i ::
              (Get(qna, l).None? && (forall j :: 0 <= j < |qna| ==> !Related(qna[j].0, l)) &&
               IsFirstOverlap(qna, kws, i)) ==> r == Some(qna[i].1)
    ensures r.None? <==>
              Get(qna, l).None? &&
              (forall j :: 0 <= j < |qna| ==> !Related(qna[j].0, l)) &&
              (forall j :: 0 <= j < |qna| ==> !Overlaps(kws, qna[j].0))
  {
    match Get(qna, l)
    case Some(a) => Some(a)
    case None =>
      match FirstRelated(qna, l, 0)
      case Some(i) => Some(qna[i].1)
      case None =>
        match FirstOverlap(qna, kws, 0)
        case Some(i) => Some(qna[i].1)
        case None => None
  }

  /** Every answer the matcher gives is a stored answer. */
  lemma QnaMatchAnswersFromTable(qna: Dict<string>, msg: string)
    requires QnaMatch(qna, msg).Some?
    ensures exists i :: 0 <= i < |qna| && QnaMatch(qna, msg).value == qna[i].1
  {
    var l := Lower(msg);
    match Get(qna, l)
    case Some(a) =>
      var i := IndexOf(qna, l).value;
      assert QnaMatch(qna, msg).value == qna[i].1;
    case None =>
      match FirstRelated(qna, l, 0)
      case Some(i) =>
      case None =>
        var i := FirstOverlap(qna, ExtractKeywords(l), 0).value;
        assert QnaMatch(qna, msg).value == qna[i].1;
  }

  /** The empty message is inside every question, so it gets the first stored
      answer unless the empty string is itself a key. */
  lemma EmptyMessageGetsFirstAnswer(qna: Dict<string>)
    requires |qna| > 0 && Get(qna, "").None?
    ensures QnaMatch(qna, "") == Some(qna[0].1)
  {
    assert Lower("") == "";
    assert StartsWith(qna[0].0, "");
    assert IsFirstRelated(qna, "", 0);
  }

  lemma {:induction false} AsSetSize(ws: seq<string>)
    ensures |AsSet(ws)| <= |ws|
  {
    if ws != [] {
      AsSetSize(ws[1..]);
      assert AsSet(ws) == {ws[0]} + AsSet(ws[1..]);
    }
  }

  lemma CommonSize(a: seq<string>, b: seq<string>)
    ensures |Common(a, b)| <= |a| && |Common(a, b)| <= |b|
  {
    var sa, sb := AsSet(a), AsSet(b);
    assert sa == (sa * sb) + (sa - sb) && (sa * sb) !! (sa - sb);
    assert sb == (sa * sb) + (sb - sa) && (sa * sb) !! (sb - sa);
    AsSetSize(a);
    AsSetSize(b);
  }

  function MaxNat(a: nat, b: nat): nat {
    if a >= b then a else b
  }

  function MaxReal(a: real, b: real): real {
    if a >= b then a else b
  }

  /** A count divided by a positive bound it does not exceed is a ratio in [0, 1]. */
  lemma RatioBounds(c: nat, m: nat)
    requires 0 < m && c <= m
    ensures 0.0 <= (c as real) / (m as real) <= 1.0
    ensures (c as real) / (m as real) == 1.0 ==> c == m
  {
    var q := (c as real) / (m as real);
    assert q * (m as real) == c as real;
  }

  /** `len(common) / max(len(keywords), len(question_keywords))`. */
  function Similarity(keywords: seq<string>, questionKeywords: seq<string>): (r: real)
    requires keywords != [] && questionKeywords != []
    ensures 0.0 <= r <= 1.0
    ensures r == 1.0 ==> |Common(keywords, questionKeywords)| == |keywords| == |questionKeywords|
  {
    CommonSize(keywords, questionKeywords);
    RatioBounds(|Common(keywords, questionKeywords)|, MaxNat(|keywords|, |questionKeywords|));
    (|Common(keywords, questionKeywords)| as real) / (MaxNat(|keywords|, |questionKeywords|) as real)
  }

  /** A question with keywords, and its similarity with the message's keywords. */
  predicate Scored(keywords: seq<string>, qs: Dict<string>, i: int) {
    0 <= i < |qs| && keywords != [] && ExtractKeywords(qs[i].0) != []
  }

  /** The running maximum of the confidence loop after the questions of `qs`. */
  function BestSimilarity(keywords: seq<string>, qs: Dict<string>): (r: real)
    requires keywords != []
    ensures 0.0 <= r <= 1.0
    decreases |qs|
  {
    if qs == [] then 0.0
    else
      var best := BestSimilarity(keywords, qs[..|qs| - 1]);
      var questionKeywords := ExtractKeywords(qs[|qs| - 1].0);
      if questionKeywords == [] then best
      else MaxReal(best, Similarity(keywords, questionKeywords))
  }

  /** The loop computes the maximum: no question with keywords scores higher,
      and unless it is the initial 0 the result is some question's score. */
  lemma {:induction false} BestSimilarityIsMaximum(keywords: seq<string>, qs: Dict<string>)
    requires keywords != []
    ensures forall i :: Scored(keywords, qs, i) ==>
              Similarity(keywords, ExtractKeywords(qs[i].0)) <= BestSimilarity(keywords, qs)
    ensures BestSimilarity(keywords, qs) == 0.0 ||
            exists i :: Scored(keywords, qs, i) &&
                        BestSimilarity(keywords, qs) == Similarity(keywords, ExtractKeywords(qs[i].0))
    decreases |qs|
  {
    if qs != [] {
      var init := qs[..|qs| - 1];
      BestSimilarityIsMaximum(keywords, init);
      var r, best := BestSimilarity(keywords, qs), BestSimilarity(keywords, init);
      forall i | Scored(keywords, qs, i)
        ensures Similarity(keywords, ExtractKeywords(qs[i].0)) <= r
      {
        if i < |qs| - 1 {
          assert init[i] == qs[i] && Scored(keywords, init, i);
        }
      }
      if r != 0.0 && r == best {
        var i :| Scored(keywords, init, i) && best == Similarity(keywords, ExtractKeywords(init[i].0));
        assert init[i] == qs[i] && Scored(keywords, qs, i);
      } else if r != 0.0 {
        assert Scored(keywords, qs, |qs| - 1);
      }
    }
  }

  /** One more question of the loop: the maximum over a longer prefix. */
  lemma BestSimilarityStep(keywords: seq<string>, qs: Dict<string>, i: int)
    requires keywords != [] && 0 <= i < |qs|
    ensures var questionKeywords := ExtractKeywords(qs[i].0);
            BestSimilarity(keywords, qs[..i + 1]) ==
              if questionKeywords == [] then BestSimilarity(keywords, qs[..i])
              else MaxReal(BestSimilarity(keywords, qs[..i]), Similarity(keywords, questionKeywords))
  {
    assert qs[..i + 1][..i] == qs[..i];
  }

  /** The literal score of an exact match. */
  const ExactConfidence: real := 0.9

  /** `_calculate_confidence(msg)`. */
  function Confidence(qna: Dict<string>, msg: string): (r: real)
    ensures 0.0 <= r <= 1.0
    ensures Get(qna, Lower(msg)).Some? ==> r == ExactConfidence
    ensures Get(qna, Lower(msg)).None? && ExtractKeywords(msg) == [] ==> r == 0.0
    ensures Get(qna, Lower(msg)).None? && ExtractKeywords(msg) != [] ==>
              r == BestSimilarity(ExtractKeywords(msg), qna)
  {
    if Get(qna, Lower(msg)).Some? then ExactConfidence
    else
      var keywords := ExtractKeywords(msg);
      if keywords == [] then 0.0 else BestSimilarity(keywords, qna)
  }
}
