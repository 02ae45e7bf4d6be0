/**
 * Questionnaire scoring: `convertToScore` turns a free-text answer into the
 * score of the first category the answer contains, and the PSQI and BSRS-5
 * rules add up the scores of their questions, failing on the first answer no
 * category matches.
 */
module Scoring {
  import opened Wrappers
  import opened Text

  /** One question: its answer categories in the order they are tried, and their scores. */
  datatype Question = Question(categories: seq<string>, scores: seq<int>)

  predicate WellFormed(q: Question) {
    |q.categories| == |q.scores|
  }

  predicate AllWellFormed(qs: seq<Question>) {
    forall k :: 0 <= k < |qs| ==> WellFormed(qs[k])
  }

  /** For each category, whether the answer contains it. */
  function Hits(response: string, categories: seq<string>): (bs: seq<bool>)
    ensures |bs| == |categories|
    ensures forall i :: 0 <= i < |bs| ==> (bs[i] <==> Contains(response, categories[i]))
  {
    seq(|categories|, i requires 0 <= i < |categories| => Contains(response, categories[i]))
  }

  /**
   * The score of an answer: the score of the FIRST category it contains, or
   * nothing when it contains none.
   */
  function ScoreOf(response: string, q: Question): (r: Option<int>)
    requires WellFormed(q)
  {
    match FirstTrue(Hits(response, q.categories))
    case Some(i) => Some(q.scores[i])
    case None => None
  }

  /**
   * An answer scores exactly when it contains some category, and then scores
   * what the first category it contains is worth: an answer containing two
   * categories gets the score of the one listed first.
   */
  lemma ScoreOfMeaning(response: string, q: Question)
    requires WellFormed(q)
    ensures ScoreOf(response, q).None? <==> forall i :: 0 <= i < |q.categories| ==> !Contains(response, q.categories[i])
    ensures ScoreOf(response, q).Some? ==>
      (exists i :: 0 <= i < |q.categories| && FirstHit(response, q, i) && ScoreOf(response, q).value == q.scores[i])
  {
    var bs := Hits(response, q.categories);
    if FirstTrue(bs).Some? {
      assert FirstHit(response, q, FirstTrue(bs).value);
    }
  }

  /** Category i is the first one the answer contains. */
  predicate FirstHit(response: string, q: Question, i: nat)
    requires i < |q.categories|
  {
    Contains(response, q.categories[i]) && forall j :: 0 <= j < i ==> !Contains(response, q.categories[j])
  }

  /** `convertToScore`: tries the categories in order and stops at the first one the answer contains. */
  method ConvertToScore(response: string, q: Question) returns (r: Option<int>)
    requires WellFormed(q)
    ensures r == ScoreOf(response, q)
  {
    var i := 0;
    while i < |q.categories|
      invariant 0 <= i <= |q.categories|
      invariant forall j :: 0 <= j < i ==> !Contains(response, q.categories[j])
    {
      if Contains(response, q.categories[i]) {
        ghost var bs := Hits(response, q.categories);
        assert bs[i];
        return Some(q.scores[i]);
      }
      i := i + 1;
    }
    return None;
  }

  /**
   * The total of a questionnaire: the sum of the answers' scores, or the
   * 1-based number of the first question whose answer matches no category.
   */
  function Total(answers: seq<string>, qs: seq<Question>): (r: Result<int, nat>)
    requires |answers| == |qs| && AllWellFormed(qs)
    ensures r.Err? ==> 1 <= r.error <= |qs|
    decreases |qs|
  {
    if qs == [] then Ok(0)
    else
      var n := |qs|;
      PrefixWellFormed(qs, n - 1);
      match Total(answers[..n - 1], qs[..n - 1])
      case Err(e) => Err(e)
      case Ok(t) =>
        match ScoreOf(answers[n - 1], qs[n - 1])
        case None => Err(n)
        case Some(s) => Ok(t + s)
  }

  /** The answer to question k matches one of its categories. */
  predicate Answered(answers: seq<string>, qs: seq<Question>, k: nat)
    requires |answers| == |qs| && AllWellFormed(qs) && k < |qs|
  {
    ScoreOf(answers[k], qs[k]).Some?
  }

  /** The answers to the first n questions all match a category. */
  predicate AllAnswered(answers: seq<string>, qs: seq<Question>, n: nat)
    requires |answers| == |qs| && AllWellFormed(qs) && n <= |qs|
  {
    forall k :: 0 <= k < n ==> Answered(answers, qs, k)
  }

  lemma PrefixWellFormed(qs: seq<Question>, n: nat)
    requires AllWellFormed(qs) && n <= |qs|
    ensures AllWellFormed(qs[..n])
  {
  }

  lemma AnsweredPrefix(answers: seq<string>, qs: seq<Question>, n: nat)
    requires |answers| == |qs| && AllWellFormed(qs) && n <= |qs|
    ensures AllWellFormed(qs[..n])
    ensures forall k :: 0 <= k < n ==> Answered(answers[..n], qs[..n], k) == Answered(answers, qs, k)
  {
  }

  /** Every score of every question lies in 0..m. */
  predicate ScoresWithin(qs: seq<Question>, m: int) {
    forall k :: 0 <= k < |qs| ==> ScoresIn(qs[k], m)
  }

  predicate ScoresIn(q: Question, m: int) {
    forall i :: 0 <= i < |q.scores| ==> 0 <= q.scores[i] <= m
  }

  /**
   * A questionnaire totals exactly when every answer matches a category, and
   * otherwise reports the first question whose answer matches none.
   */
  lemma {:induction false} TotalMeaning(answers: seq<string>, qs: seq<Question>)
    requires |answers| == |qs| && AllWellFormed(qs)
    ensures Total(answers, qs).Ok? <==> AllAnswered(answers, qs, |qs|)
    ensures Total(answers, qs).Err? ==>
      var e := Total(answers, qs).error;
      1 <= e <= |qs| && !Answered(answers, qs, e - 1) && AllAnswered(answers, qs, e - 1)
    decreases |qs|
  {
    if qs != [] {
      var n := |qs|;
      AnsweredPrefix(answers, qs, n - 1);
      TotalMeaning(answers[..n - 1], qs[..n - 1]);
      var p := Total(answers[..n - 1], qs[..n - 1]);
      if p.Ok? {
        assert AllAnswered(answers, qs, n - 1);
        if Answered(answers, qs, n - 1) {
          assert AllAnswered(answers, qs, n);
        }
      } else {
        assert !AllAnswered(answers, qs, n) by {
          assert !Answered(answers, qs, p.error - 1);
        }
      }
    }
  }

  /** A failure on a prefix of the questionnaire is the failure of the whole. */
  lemma {:induction false} TotalFailsEarly(answers: seq<string>, qs: seq<Question>, n: nat)
    requires |answers| == |qs| && AllWellFormed(qs)
    requires n <= |qs| && Total(answers[..n], qs[..n]).Err?
    ensures Total(answers, qs) == Total(answers[..n], qs[..n])
    decreases |qs| - n
  {
    if n < |qs| {
      var m := |qs|;
      assert answers[..m - 1][..n] == answers[..n] && qs[..m - 1][..n] == qs[..n];
      TotalFailsEarly(answers[..m - 1], qs[..m - 1], n);
    } else {
      assert answers[..n] == answers && qs[..n] == qs;
    }
  }

  /** The score of an answer is one of the question's scores. */
  lemma ScoreWithin(response: string, q: Question, m: int)
    requires WellFormed(q) && ScoresIn(q, m)
    ensures ScoreOf(response, q).Some? ==> 0 <= ScoreOf(response, q).value <= m
  {
  }

  /** Every total lies between 0 and the number of questions times the top score. */
  lemma {:induction false} TotalBounds(answers: seq<string>, qs: seq<Question>, m: int)
    requires |answers| == |qs| && AllWellFormed(qs)
    requires ScoresWithin(qs, m) && 0 <= m
    ensures Total(answers, qs).Ok? ==> 0 <= Total(answers, qs).value <= m * |qs|
    decreases |qs|
  {
    if qs != [] && Total(answers, qs).Ok? {
      var n := |qs|;
      PrefixWellFormed(qs, n - 1);
      assert ScoresWithin(qs[..n - 1], m);
      TotalBounds(answers[..n - 1], qs[..n - 1], m);
      assert ScoreOf(answers[n - 1], qs[n - 1]).Some? ==> 0 <= ScoreOf(answers[n - 1], qs[n - 1]).value <= m by {
        ScoreWithin(answers[n - 1], qs[n - 1], m);
      }
      assert m * (n - 1) + m == m * n;
    }
  }

  /** The first i answers total `total`. */
  predicate SoFar(answers: seq<string>, qs: seq<Question>, i: nat, total: int)
    requires |answers| == |qs| && AllWellFormed(qs) && i <= |qs|
  {
    PrefixWellFormed(qs, i);
    Total(answers[..i], qs[..i]) == Ok(total)
  }

  /** One more matched answer adds its score to the total so far. */
  lemma TotalStep(answers: seq<string>, qs: seq<Question>, i: nat, total: int)
    requires |answers| == |qs| && AllWellFormed(qs) && i < |qs|
    requires SoFar(answers, qs, i, total) && ScoreOf(answers[i], qs[i]).Some?
    ensures SoFar(answers, qs, i + 1, total + ScoreOf(answers[i], qs[i]).value)
  {
    PrefixWellFormed(qs, i + 1);
    assert answers[..i + 1][..i] == answers[..i] && qs[..i + 1][..i] == qs[..i];
    assert answers[..i + 1][i] == answers[i] && qs[..i + 1][i] == qs[i];
  }

  /** An unmatched answer after a matched prefix is the failure of the whole questionnaire. */
  lemma TotalStops(answers: seq<string>, qs: seq<Question>, i: nat, total: int)
    requires |answers| == |qs| && AllWellFormed(qs) && i < |qs|
    requires SoFar(answers, qs, i, total) && ScoreOf(answers[i], qs[i]).None?
    ensures Total(answers, qs) == Err(i + 1)
  {
    PrefixWellFormed(qs, i + 1);
    assert Total(answers[..i + 1], qs[..i + 1]) == Err(i + 1) by {
      assert answers[..i + 1][..i] == answers[..i] && qs[..i + 1][..i] == qs[..i];
      assert answers[..i + 1][i] == answers[i] && qs[..i + 1][i] == qs[i];
    }
    TotalFailsEarly(answers, qs, i + 1);
  }

  /**
   * The scoring of `parsePSQI` and `parseBSRS5`: their hand-written chain of
   * `convertToScore` calls, one per question, each adding its score to the
   * running total.
   */
  method ScoreAnswers(answers: seq<string>, qs: seq<Question>) returns (r: Result<int, nat>)
    requires |answers| == |qs| && AllWellFormed(qs)
    ensures r == Total(answers, qs)
  {
    var total := 0;
    var i := 0;
    while i < |qs|
      invariant 0 <= i <= |qs|
      invariant SoFar(answers, qs, i, total)
    {
      var score := ConvertToScore(answers[i], qs[i]);
      if score.None? {
        TotalStops(answers, qs, i, total);
        return Err(i + 1);
      }
      TotalStep(answers, qs, i, total);
      total := total + score.value;
      i := i + 1;
    }
    assert answers[..i] == answers && qs[..i] == qs;
    return Ok(total);
  }

  // ------------------------------------------------------------ questionnaires

  const FrequencyCategories: seq<string> := ["每週3次以上", "每週1-2次", "每週少於一次", "從未如此"]
  const DescendingFour: seq<int> := [3, 2, 1, 0]

  /** The seven PSQI questions, in the order of the rule's input fields. */
  const PsqiQuestions: seq<Question> := [
    Question(["少於5小時", "5-6小時", "6-7小時", "7小時以上"], DescendingFour),
    Question(["61分鐘以上", "31-60分鐘", "15-30分鐘", "少於15分鐘"], DescendingFour),
    Question(["少於65%", "65-74%", "75-84%", "85%以上"], DescendingFour),
    Question(FrequencyCategories, DescendingFour),
    Question(["非常不好", "不好", "好", "非常好"], DescendingFour),
    Question(FrequencyCategories, DescendingFour),
    Question(FrequencyCategories, DescendingFour)
  ]

  const SeverityQuestion: Question :=
    Question(["非常厲害", "厲害", "中等", "輕微", "沒有"], [4, 3, 2, 1, 0])

  /** The five BSRS-5 questions: all share the same five severity categories. */
  const Bsrs5Questions: seq<Question> :=
    [SeverityQuestion, SeverityQuestion, SeverityQuestion, SeverityQuestion, SeverityQuestion]

  lemma PsqiWellFormed()
    ensures |PsqiQuestions| == 7 && forall k :: 0 <= k < 7 ==> WellFormed(PsqiQuestions[k])
    ensures ScoresWithin(PsqiQuestions, 3)
  {
  }

  lemma Bsrs5WellFormed()
    ensures |Bsrs5Questions| == 5 && forall k :: 0 <= k < 5 ==> WellFormed(Bsrs5Questions[k])
    ensures ScoresWithin(Bsrs5Questions, 4)
  {
  }

  /** A PSQI total lies in 0..21. */
  lemma PsqiRange(answers: seq<string>)
    requires |answers| == 7
    ensures Total(answers, PsqiQuestions).Ok? ==> 0 <= Total(answers, PsqiQuestions).value <= 21
  {
    PsqiWellFormed();
    TotalBounds(answers, PsqiQuestions, 3);
  }

  /** A BSRS-5 total lies in 0..20. */
  lemma Bsrs5Range(answers: seq<string>)
    requires |answers| == 5
    ensures Total(answers, Bsrs5Questions).Ok? ==> 0 <= Total(answers, Bsrs5Questions).value <= 20
  {
    Bsrs5WellFormed();
    TotalBounds(answers, Bsrs5Questions, 4);
  }

  /**
   * Sleep quality (question 5) can never score 0: every answer containing
   * 非常好 also contains 好, which is tried first, so "非常好" scores 1.
   */
  lemma SleepQualityNeverZero(response: string)
    ensures ScoreOf(response, PsqiQuestions[4]) != Some(0)
    ensures ScoreOf("非常好", PsqiQuestions[4]) == Some(1)
  {
    var q := PsqiQuestions[4];
    assert OccursAt("非常好", "好", 2);
    if Contains(response, "非常好") {
      ContainsTransitive(response, "非常好", "好");
    }
    MissingChar("非常好", "不好", 0);
    MissingChar("非常好", "非常不好", 2);
    ScoreOfMeaning(response, q);
    ScoreOfMeaning("非常好", q);
  }
}
