/**
 * The topic page's quiz (`topic-page/topic-quiz.tsx`): one question at a time, an answer
 * stored per question index, and a score computed when the last question is left.
 *
 * The component renders an empty-state card and no quiz when there are no questions, so the
 * transitions are stated for `n >= 1` questions.
 */
module TopicQuiz {
  import opened QuizScoring

  datatype QuizQuestion = QuizQuestion(question: string, optionA: string, optionB: string, optionC: string,
                                       optionD: string, correctAnswer: string, explanation: string)

  /** A question's `correct_answer`. */
  function AnswerKey(q: QuizQuestion): string {
    q.correctAnswer
  }

  datatype QuizState = QuizState(currentQuestion: int, answers: map<int, string>, showResults: bool, score: nat)

  const Initial: QuizState := QuizState(0, map[], false, 0)

  /** The current question is one of the `n` questions and the score is at most `n`. */
  predicate Valid(q: QuizState, n: nat) {
    0 <= q.currentQuestion < n && q.score <= n
  }

  /** `handleAnswerSelect`: store the answer for the current question only. */
  function AnswerSelect(q: QuizState, answer: string): (r: QuizState)
    ensures r.currentQuestion == q.currentQuestion && r.showResults == q.showResults && r.score == q.score
    ensures r.answers.Keys == q.answers.Keys + {q.currentQuestion}
    ensures r.answers[q.currentQuestion] == answer
    ensures forall k | k in q.answers && k != q.currentQuestion :: r.answers[k] == q.answers[k]
  {
    q.(answers := q.answers[q.currentQuestion := answer])
  }

  /** What `handleNext` does: move on, or at the last question show the results with the score. */
  function Next(q: QuizState, questions: seq<QuizQuestion>): QuizState {
    if q.currentQuestion < |questions| - 1 then q.(currentQuestion := q.currentQuestion + 1)
    else q.(showResults := true, score := Score(q.answers, CorrectAnswers(questions, AnswerKey)))
  }

  /** `handleNext`, whose score is counted by a `forEach` loop. */
  method HandleNext(q: QuizState, questions: seq<QuizQuestion>) returns (r: QuizState)
    ensures r == Next(q, questions)
  {
    if q.currentQuestion < |questions| - 1 {
      return q.(currentQuestion := q.currentQuestion + 1);
    }
    var score := CountScore(q.answers, CorrectAnswers(questions, AnswerKey));
    return q.(showResults := true, score := score);
  }

  /** `handlePrevious`: step back unless at the first question. */
  function Previous(q: QuizState): QuizState {
    if q.currentQuestion > 0 then q.(currentQuestion := q.currentQuestion - 1) else q
  }

  /** `handleRestart`. */
  function Restart(): QuizState {
    Initial
  }

  /** The Next button needs an answer to the current question. */
  predicate NextEnabled(q: QuizState) {
    q.currentQuestion in q.answers && q.answers[q.currentQuestion] != ""
  }

  /** The Previous button is disabled at the first question. */
  predicate PreviousEnabled(q: QuizState) {
    q.currentQuestion != 0
  }

  /** The result screen's percentage and pass mark. */
  function Percentage(q: QuizState, n: nat): nat
    requires n > 0
  {
    Percent(q.score, n)
  }

  /** Every transition keeps the current question within the questions and the score within their number. */
  lemma TransitionsKeepValid(q: QuizState, questions: seq<QuizQuestion>, answer: string)
    requires |questions| >= 1
    ensures Valid(Initial, |questions|)
    ensures Valid(q, |questions|) ==> Valid(AnswerSelect(q, answer), |questions|)
    ensures Valid(q, |questions|) ==> Valid(Next(q, questions), |questions|)
    ensures Valid(q, |questions|) ==> Valid(Previous(q), |questions|)
    ensures Valid(Restart(), |questions|)
  {
  }

  /**
   * `handleNext` moves forward exactly when the current question is not the last; at the last
   * it keeps the index and shows the number of correctly answered questions.
   */
  lemma NextMovesOrFinishes(q: QuizState, questions: seq<QuizQuestion>)
    requires Valid(q, |questions|)
    ensures q.currentQuestion < |questions| - 1 <==> Next(q, questions).currentQuestion == q.currentQuestion + 1
    ensures q.currentQuestion == |questions| - 1 ==>
              && Next(q, questions).currentQuestion == q.currentQuestion
              && Next(q, questions).showResults
              && Next(q, questions).score == |Matching(q.answers, CorrectAnswers(questions, AnswerKey))|
    ensures Next(q, questions).answers == q.answers
  {
    if q.currentQuestion == |questions| - 1 {
      ScoreCountsMatching(q.answers, CorrectAnswers(questions, AnswerKey));
    }
  }

  /** Previous undoes Next, and Next undoes Previous, away from the ends. */
  lemma NavigationRoundTrip(q: QuizState, questions: seq<QuizQuestion>)
    requires Valid(q, |questions|)
    ensures q.currentQuestion < |questions| - 1 ==> Previous(Next(q, questions)) == q
    ensures q.currentQuestion > 0 ==> Next(Previous(q), questions) == q
  {
  }

  /** Previous changes the state exactly when its button is enabled. */
  lemma PreviousEnabledIff(q: QuizState)
    requires q.currentQuestion >= 0
    ensures PreviousEnabled(q) <==> Previous(q) != q
  {
  }

  /** Choosing a non-empty answer enables Next; a restart disables it. */
  lemma AnswerEnablesNext(q: QuizState, answer: string)
    requires answer != ""
    ensures NextEnabled(AnswerSelect(q, answer))
    ensures !NextEnabled(Restart())
  {
  }

  /** A finished quiz is passed exactly when at least 69.5 % of the questions were answered correctly. */
  lemma FinishedPassRule(q: QuizState, questions: seq<QuizQuestion>)
    requires Valid(q, |questions|) && q.currentQuestion == |questions| - 1
    ensures Passed(Next(q, questions).score, |questions|) <==>
              200 * |Matching(q.answers, CorrectAnswers(questions, AnswerKey))| >= 139 * |questions|
    ensures Percentage(Next(q, questions), |questions|) <= 100
  {
    ScoreCountsMatching(q.answers, CorrectAnswers(questions, AnswerKey));
    PassedIff(Next(q, questions).score, |questions|);
  }
}
