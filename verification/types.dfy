/** The records the components exchange. */
module Types {

  /** One multiple-choice question as the quiz generator returns it. Nothing
      forces `options` to have four entries or to contain `correctAnswer`. */
  datatype QuizQuestion = QuizQuestion(question: string, options: seq<string>, correctAnswer: string)

  /** The quiz answers: question index to the option text the player chose. */
  type Answers = map<int, string>
}
