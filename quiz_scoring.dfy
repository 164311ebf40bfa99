/**
 * Scoring shared by the topic quiz and the goal node's quiz: answers are kept in an object
 * keyed by question index, a question scores when its stored answer is `===` its
 * `correct_answer` (a missing answer is `undefined` and never scores), and the percentage is
 * `Math.round(score / n * 100)`.
 */
module QuizScoring {

  /**
   * The `correct_answer` of each question, by index; `key` reads it off a question, since the
   * topic page and the goal dialog keep their questions in different records.
   */
  function CorrectAnswers<Q>(questions: seq<Q>, key: Q -> string): (r: seq<string>)
    ensures |r| == |questions|
    ensures forall i | 0 <= i < |questions| :: r[i] == key(questions[i])
  {
    seq(|questions|, i requires 0 <= i < |questions| => key(questions[i]))
  }

  /** The indices below `|correct|` whose stored answer is the correct one. */
  function Matching(answers: map<int, string>, correct: seq<string>): set<int> {
    set i | 0 <= i < |correct| && i in answers && answers[i] == correct[i]
  }

  /** The score over the first `|correct|` questions, counted front to back. */
  function Score(answers: map<int, string>, correct: seq<string>): (r: nat)
    ensures r <= |correct|
  {
    if correct == [] then 0
    else
      var n := |correct| - 1;
      Score(answers, correct[..n]) + (if n in answers && answers[n] == correct[n] then 1 else 0)
  }

  /** The score is the number of correctly answered questions. */
  lemma {:induction false} ScoreCountsMatching(answers: map<int, string>, correct: seq<string>)
    ensures Score(answers, correct) == |Matching(answers, correct)|
    decreases |correct|
  {
    if correct != [] {
      var n := |correct| - 1;
      ScoreCountsMatching(answers, correct[..n]);
      var before := Matching(answers, correct[..n]);
      if n in answers && answers[n] == correct[n] {
        assert Matching(answers, correct) == before + {n};
      } else {
        assert Matching(answers, correct) == before;
      }
    }
  }

  /** Every question is answered correctly exactly when the score is the number of questions. */
  lemma {:induction false} ScoreFullIff(answers: map<int, string>, correct: seq<string>)
    ensures Score(answers, correct) == |correct| <==>
            forall i | 0 <= i < |correct| :: i in answers && answers[i] == correct[i]
    decreases |correct|
  {
    if correct != [] {
      var n := |correct| - 1;
      ScoreFullIff(answers, correct[..n]);
      if Score(answers, correct) == |correct| {
        forall i | 0 <= i < |correct| ensures i in answers && answers[i] == correct[i] {
          if i < n {
            assert correct[..n][i] == correct[i];
          }
        }
      }
    }
  }

  /** The `forEach` loop of the score computation. */
  method CountScore(answers: map<int, string>, correct: seq<string>) returns (score: nat)
    ensures score == Score(answers, correct)
  {
    score := 0;
    for index := 0 to |correct|
      invariant score == Score(answers, correct[..index])
    {
      assert correct[..index + 1][..index] == correct[..index];
      if index in answers && answers[index] == correct[index] {
        score := score + 1;
      }
    }
    assert correct[..|correct|] == correct;
  }

  /**
   * `Math.round(score / n * 100)` on exact ratios: the nearest integer to `100 * score / n`,
   * halves rounded up.
   */
  function Percent(score: nat, n: nat): (r: nat)
    requires n > 0
    ensures 2 * n * r <= 200 * score + n < 2 * n * (r + 1)
    ensures score <= n ==> r <= 100
  {
    var q := (200 * score + n) / (2 * n);
    DivBounds(200 * score + n, 2 * n);
    if score <= n then AtMostHundred(score, n, q); q else q
  }

  lemma DivBounds(a: nat, d: nat)
    requires d > 0
    ensures d * (a / d) <= a < d * (a / d + 1)
  {
    assert (a / d) * d + a % d == a;
  }

  lemma AtMostHundred(score: nat, n: nat, q: nat)
    requires n > 0 && score <= n && 2 * n * q <= 200 * score + n
    ensures q <= 100
  {
    if q > 100 {
      MulMono(2 * n, 101, q);
    }
  }

  lemma MulMono(a: nat, x: int, y: int)
    requires x <= y
    ensures a * x <= a * y
  {
    var d := y - x;
    assert a * y == a * x + a * d;
  }

  /** A percentage at or above the pass mark of 70 passes. */
  predicate Passed(score: nat, n: nat)
    requires n > 0
  {
    Percent(score, n) >= 70
  }

  /** The pass rule in whole numbers: 70 after rounding means at least 69.5 % before it. */
  lemma PassedIff(score: nat, n: nat)
    requires n > 0
    ensures Passed(score, n) <==> 200 * score >= 139 * n
  {
    var r := Percent(score, n);
    if r >= 70 {
      MulMono(2 * n, 70, r);
    } else {
      MulMono(2 * n, r + 1, 70);
    }
  }

  /** A perfect score is 100 %, no correct answer 0 %. */
  lemma PercentExtremes(n: nat)
    requires n > 0
    ensures Percent(n, n) == 100 && Percent(0, n) == 0
  {
    var full := Percent(n, n);
    if full < 100 {
      MulMono(2 * n, full + 1, 100);
    }
    var none := Percent(0, n);
    if none > 0 {
      MulMono(2 * n, 1, none);
    }
  }
}
