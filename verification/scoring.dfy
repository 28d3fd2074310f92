/** Marking a submitted quiz. */
module Scoring {
  import opened Types
  import Indices

  /** The score shown after a quiz: points earned out of the question count. */
  datatype QuizResult = QuizResult(score: nat, total: nat)

  /** Question `i` has a recorded answer equal to its correct answer. */
  predicate AnsweredCorrectly(questions: seq<QuizQuestion>, answers: Answers, i: int)
    requires 0 <= i < |questions|
  {
    i in answers && answers[i] == questions[i].correctAnswer
  }

  /** The indices of the questions answered correctly. */
  function CorrectIndices(questions: seq<QuizQuestion>, answers: Answers): set<int>
  {
    set i | 0 <= i < |questions| && AnsweredCorrectly(questions, answers, i)
  }

  /** Counts the correct answers among `questions`, the last question last. */
  function CorrectCount(questions: seq<QuizQuestion>, answers: Answers): (n: nat)
    ensures n <= |questions|
  {
    if |questions| == 0 then 0
    else
      var last := |questions| - 1;
      CorrectCount(questions[..last], answers) + (if AnsweredCorrectly(questions, answers, last) then 1 else 0)
  }

  /** The running count agrees with the set of correctly answered indices. */
  lemma {:induction false} CorrectCountIsCorrectIndices(questions: seq<QuizQuestion>, answers: Answers)
    ensures CorrectCount(questions, answers) == |CorrectIndices(questions, answers)|
  {
    if |questions| == 0 {
      assert forall i :: i !in CorrectIndices(questions, answers);
      assert CorrectIndices(questions, answers) == {};
    } else {
      var last := |questions| - 1;
      var prefix := questions[..last];
      CorrectCountIsCorrectIndices(prefix, answers);
      var before := CorrectIndices(prefix, answers);
      assert forall i :: 0 <= i < last ==> (AnsweredCorrectly(prefix, answers, i) <==> AnsweredCorrectly(questions, answers, i));
      if AnsweredCorrectly(questions, answers, last) {
        assert CorrectIndices(questions, answers) == before + {last};
      } else {
        assert CorrectIndices(questions, answers) == before;
      }
    }
  }

  /** `handleQuizSubmit`'s marking loop: one point per question whose recorded
      answer is its correct answer, visiting the questions in order. */
  method ScoreQuiz(questions: seq<QuizQuestion>, answers: Answers) returns (score: nat)
    ensures score == |CorrectIndices(questions, answers)|
    ensures score <= |questions|
  {
    score := 0;
    var index := 0;
    while index < |questions|
      invariant 0 <= index <= |questions|
      invariant score == CorrectCount(questions[..index], answers)
    {
      assert questions[..index + 1][..index] == questions[..index];
      if index in answers && answers[index] == questions[index].correctAnswer {
        score := score + 1;
      }
      index := index + 1;
    }
    assert questions[..|questions|] == questions;
    CorrectCountIsCorrectIndices(questions, answers);
  }

  /** The result recorded on submission. */
  function Grade(questions: seq<QuizQuestion>, answers: Answers): (r: QuizResult)
    ensures r.total == |questions|
    ensures r.score == |CorrectIndices(questions, answers)|
    ensures r.score <= r.total
  {
    CorrectCountIsCorrectIndices(questions, answers);
    QuizResult(CorrectCount(questions, answers), |questions|)
  }

  /** Answers stored under keys that are not question indices earn nothing:
      two answer maps that agree on the indices grade alike. */
  lemma GradeReadsOnlyQuestionIndices(questions: seq<QuizQuestion>, a: Answers, b: Answers)
    requires forall i :: 0 <= i < |questions| ==> (i in a <==> i in b)
    requires forall i :: 0 <= i < |questions| && i in a ==> a[i] == b[i]
    ensures Grade(questions, a) == Grade(questions, b)
  {
    assert CorrectIndices(questions, a) == CorrectIndices(questions, b);
  }

  /** The result screen's "perfect score" test. */
  predicate IsPerfectScore(r: QuizResult) {
    r.score == r.total
  }

  /** A perfect score means every question was answered, and answered correctly. */
  lemma PerfectIffAllCorrect(questions: seq<QuizQuestion>, answers: Answers)
    ensures IsPerfectScore(Grade(questions, answers)) <==>
            forall i :: 0 <= i < |questions| ==> AnsweredCorrectly(questions, answers, i)
  {
    var correct := CorrectIndices(questions, answers);
    Indices.FullIffEveryIndex(correct, |questions|);
    assert forall i :: 0 <= i < |questions| ==> (i in correct <==> AnsweredCorrectly(questions, answers, i));
  }

  /** Answers A, X, C against correct answers A, B, C score 2 of 3. */
  lemma WorkedExample()
    ensures Grade([QuizQuestion("q1", ["A", "B"], "A"), QuizQuestion("q2", ["A", "B"], "B"),
                   QuizQuestion("q3", ["C", "D"], "C")],
                  map[0 := "A", 1 := "X", 2 := "C"])
            == QuizResult(2, 3)
  {
    var qs := [QuizQuestion("q1", ["A", "B"], "A"), QuizQuestion("q2", ["A", "B"], "B"),
               QuizQuestion("q3", ["C", "D"], "C")];
    var a := map[0 := "A", 1 := "X", 2 := "C"];
    assert qs[..2][..1][..0] == [];
    assert CorrectCount(qs[..2][..1], a) == 1;
    assert CorrectCount(qs[..2], a) == 1;
    assert CorrectCount(qs, a) == 2;
  }
}
