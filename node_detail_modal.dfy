/**
 * The quiz tab of a goal node's detail dialog (`goals/node-detail-modal.tsx`): every question
 * is shown at once, answers are kept per question index, and the quiz can be submitted once
 * as many answers as questions have been chosen.
 */
module NodeDetailModal {
  import opened Wrappers
  import opened QuizScoring

  datatype QuizQuestion = QuizQuestion(question: string, options: map<string, string>,
                                       correctAnswer: string, explanation: string)

  /** A question's `correct_answer`. */
  function AnswerKey(q: QuizQuestion): string {
    q.correctAnswer
  }

  /** `selectedAnswers` and `showResults`. */
  datatype QuizTab = QuizTab(selectedAnswers: map<int, string>, showResults: bool)

  const Initial: QuizTab := QuizTab(map[], false)

  /** `handleAnswerSelect(questionIndex, answer)`. */
  function AnswerSelect(t: QuizTab, questionIndex: int, answer: string): (r: QuizTab)
    ensures r.showResults == t.showResults
    ensures r.selectedAnswers.Keys == t.selectedAnswers.Keys + {questionIndex}
    ensures r.selectedAnswers[questionIndex] == answer
    ensures forall k | k in t.selectedAnswers && k != questionIndex :: r.selectedAnswers[k] == t.selectedAnswers[k]
  {
    t.(selectedAnswers := t.selectedAnswers[questionIndex := answer])
  }

  /** `handleSubmitQuiz`: the answers stay, the results are shown. */
  function SubmitQuiz(t: QuizTab): (r: QuizTab)
    ensures r.showResults && r.selectedAnswers == t.selectedAnswers
  {
    t.(showResults := true)
  }

  /** `resetQuiz`: no answers and no results, whatever came before. */
  function ResetQuiz(t: QuizTab): (r: QuizTab)
    ensures r == Initial
  {
    QuizTab(map[], false)
  }

  /** What `getScore` returns: 0 without questions, the number of correct answers otherwise. */
  function ScoreOf(questions: Option<seq<QuizQuestion>>, answers: map<int, string>): nat {
    match questions
    case None => 0
    case Some(qs) => Score(answers, CorrectAnswers(qs, AnswerKey))
  }

  /** `getScore`, counted by a `forEach` loop. */
  method GetScore(questions: Option<seq<QuizQuestion>>, answers: map<int, string>) returns (r: nat)
    ensures r == ScoreOf(questions, answers)
    ensures questions.Some? ==> r <= |questions.value| && r == |Matching(answers, CorrectAnswers(questions.value, AnswerKey))|
  {
    if questions.None? {
      return 0;
    }
    ScoreCountsMatching(answers, CorrectAnswers(questions.value, AnswerKey));
    r := CountScore(answers, CorrectAnswers(questions.value, AnswerKey));
  }

  /**
   * `getScorePercentage`: 0 without questions; `None` stands for the `NaN` of an empty list
   * (0 / 0), which the dialog never shows because it only renders the quiz for a non-empty list.
   */
  method GetScorePercentage(questions: Option<seq<QuizQuestion>>, answers: map<int, string>) returns (r: Option<nat>)
    ensures questions.None? ==> r == Some(0)
    ensures questions.Some? && questions.value == [] ==> r.None?
    ensures questions.Some? && questions.value != [] ==>
              r == Some(Percent(ScoreOf(questions, answers), |questions.value|)) && r.value <= 100
  {
    if questions.None? {
      return Some(0);
    }
    var score := GetScore(questions, answers);
    if |questions.value| == 0 {
      return None;
    }
    return Some(Percent(score, |questions.value|));
  }

  /** The Submit button is enabled when as many questions are answered as there are questions. */
  predicate SubmitEnabled(t: QuizTab, n: nat) {
    |t.selectedAnswers.Keys| == n
  }

  /** The answers the dialog can store: radio buttons exist only for the indices of the questions. */
  predicate KeysInRange(t: QuizTab, n: nat) {
    forall k | k in t.selectedAnswers :: 0 <= k < n
  }

  /** Selecting an answer for a shown question, submitting and resetting keep the keys in range. */
  lemma HandlersKeepKeysInRange(t: QuizTab, n: nat, questionIndex: int, answer: string)
    requires KeysInRange(t, n)
    ensures 0 <= questionIndex < n ==> KeysInRange(AnswerSelect(t, questionIndex, answer), n)
    ensures KeysInRange(SubmitQuiz(t), n) && KeysInRange(ResetQuiz(t), n)
  {
  }

  /** The indices of `n` questions. */
  function Indices(n: nat): (r: set<int>)
    ensures forall k :: k in r <==> 0 <= k < n
    ensures |r| == n
  {
    if n == 0 then {} else Indices(n - 1) + {n - 1}
  }

  /** Submit is enabled exactly when every question has an answer. */
  lemma SubmitEnabledIff(t: QuizTab, n: nat)
    requires KeysInRange(t, n)
    ensures SubmitEnabled(t, n) <==> forall i | 0 <= i < n :: i in t.selectedAnswers
  {
    var keys := t.selectedAnswers.Keys;
    assert keys <= Indices(n);
    if forall i | 0 <= i < n :: i in t.selectedAnswers {
      assert keys == Indices(n);
    } else if SubmitEnabled(t, n) {
      var i :| 0 <= i < n && i !in t.selectedAnswers;
      assert i in Indices(n) - keys;
      SmallerSubset(keys, Indices(n), i);
    }
  }

  lemma SmallerSubset(a: set<int>, b: set<int>, x: int)
    requires a <= b && x in b && x !in a
    ensures |a| < |b|
  {
    var rest := b - a;
    assert x in rest;
    assert b == a + rest && a * rest == {};
  }

  /**
   * After a reset no answer is stored, so a non-empty quiz cannot be submitted straight away,
   * and every lookup is `undefined`, so no question of any list scores.
   */
  lemma ResetDisablesSubmit(t: QuizTab, n: nat, questions: Option<seq<QuizQuestion>>)
    requires n > 0
    ensures !SubmitEnabled(ResetQuiz(t), n)
    ensures ScoreOf(questions, ResetQuiz(t).selectedAnswers) == 0
  {
    if questions.Some? {
      var correct := CorrectAnswers(questions.value, AnswerKey);
      ScoreCountsMatching(map[], correct);
      assert Matching(map[], correct) == {};
    }
  }
}
