/** The quiz screen: collects one answer per question and lets the player
    submit once every question has one. */
module QuizView {
  import opened Wrappers
  import opened Types
  import Indices

  /** The screen opens with no answers. */
  const InitialAnswers: Answers := map[]

  /** `handleAnswerChange`: record `value` as the answer to question `questionIndex`. */
  function HandleAnswerChange(answers: Answers, questionIndex: int, value: string): (r: Answers)
    ensures questionIndex in r && r[questionIndex] == value
    ensures forall k :: k != questionIndex ==> (k in r <==> k in answers)
    ensures forall k :: k != questionIndex && k in answers ==> r[k] == answers[k]
    ensures questionIndex in answers ==> |r| == |answers|
    ensures questionIndex !in answers ==> |r| == |answers| + 1
  {
    answers[questionIndex := value]
  }

  /** `allQuestionsAnswered`: as many answers as questions. */
  function AllQuestionsAnswered(answers: Answers, questions: seq<QuizQuestion>): bool {
    |answers| == |questions|
  }

  /** Every answer sits under a question index and is one of that question's options. */
  predicate Recorded(answers: Answers, questions: seq<QuizQuestion>) {
    forall k :: k in answers ==> 0 <= k < |questions| && answers[k] in questions[k].options
  }

  /** A click on option `option` of question `question`. */
  datatype Pick = Pick(question: int, option: int)

  /** The screen shows this option: the question and the option both exist. */
  predicate Offered(questions: seq<QuizQuestion>, p: Pick) {
    0 <= p.question < |questions| && 0 <= p.option < |questions[p.question].options|
  }

  /** A radio-group change: the chosen option's text is recorded for its question. */
  function Choose(answers: Answers, questions: seq<QuizQuestion>, p: Pick): (r: Answers)
    requires Offered(questions, p)
    ensures p.question in r && r[p.question] == questions[p.question].options[p.option]
    ensures forall k :: k != p.question ==> (k in r <==> k in answers)
    ensures forall k :: k != p.question && k in answers ==> r[k] == answers[k]
    ensures Recorded(answers, questions) ==> Recorded(r, questions)
  {
    HandleAnswerChange(answers, p.question, questions[p.question].options[p.option])
  }

  /** The answers after the player makes the given picks, in order. */
  function Collect(questions: seq<QuizQuestion>, picks: seq<Pick>): Answers
    requires forall k :: 0 <= k < |picks| ==> Offered(questions, picks[k])
  {
    if |picks| == 0 then InitialAnswers
    else Choose(Collect(questions, picks[..|picks| - 1]), questions, picks[|picks| - 1])
  }

  /** Whatever the player clicks, every answer is a shown option of a shown question. */
  lemma {:induction false} CollectIsRecorded(questions: seq<QuizQuestion>, picks: seq<Pick>)
    requires forall k :: 0 <= k < |picks| ==> Offered(questions, picks[k])
    ensures Recorded(Collect(questions, picks), questions)
  {
    if |picks| > 0 {
      CollectIsRecorded(questions, picks[..|picks| - 1]);
    }
  }

  /** Counting answers is the same as checking that every question has one. */
  lemma AllAnsweredIffEveryIndex(answers: Answers, questions: seq<QuizQuestion>)
    requires Recorded(answers, questions)
    ensures AllQuestionsAnswered(answers, questions) <==> forall i :: 0 <= i < |questions| ==> i in answers
  {
    Indices.FullIffEveryIndex(answers.Keys, |questions|);
  }

  /** `handleSubmit` behind the submit button, which is disabled until every
      question is answered: the answers are handed on as they are. */
  function HandleSubmit(answers: Answers, questions: seq<QuizQuestion>): (r: Option<Answers>)
    ensures r.Some? <==> AllQuestionsAnswered(answers, questions)
    ensures r.Some? ==> r.value == answers
    ensures Recorded(answers, questions) ==> (r.Some? <==> forall i :: 0 <= i < |questions| ==> i in answers)
  {
    assert Recorded(answers, questions) ==>
             (AllQuestionsAnswered(answers, questions) <==> forall i :: 0 <= i < |questions| ==> i in answers) by {
      if Recorded(answers, questions) {
        AllAnsweredIffEveryIndex(answers, questions);
      }
    }
    if AllQuestionsAnswered(answers, questions) then Some(answers) else None
  }

  /** Anything the player can submit answers every question with one of its options. */
  lemma SubmittedAnswersCoverEveryQuestion(questions: seq<QuizQuestion>, picks: seq<Pick>, i: int)
    requires forall k :: 0 <= k < |picks| ==> Offered(questions, picks[k])
    requires HandleSubmit(Collect(questions, picks), questions).Some?
    requires 0 <= i < |questions|
    ensures i in Collect(questions, picks)
    ensures Collect(questions, picks)[i] in questions[i].options
  {
    CollectIsRecorded(questions, picks);
    AllAnsweredIffEveryIndex(Collect(questions, picks), questions);
  }
}
