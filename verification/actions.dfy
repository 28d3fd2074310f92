/** The server actions: each wraps one call to the external AI service and
    turns it into either a data value or a user-facing error message. */
module Actions {
  import opened Text
  import opened Types

  /** How a call into the AI service ends: it returns a value or it throws. */
  datatype Call<T> = Returned(value: T) | Threw

  /** The `{ data } | { error }` union every action returns. */
  datatype ActionResult<T> = Data(value: T) | Error(message: string)

  /** What the quiz generator is asked with: the planet and one string of facts. */
  datatype QuizRequest = QuizRequest(planetName: string, funFacts: string)

  /** The external AI flows the actions call, as total functions of their input. */
  datatype Services = Services(
    analyzeImage: string -> Call<string>,
    generateFunFacts: string -> Call<seq<string>>,
    generateQuiz: QuizRequest -> Call<seq<QuizQuestion>>,
    textToSpeech: string -> Call<string>)

  const NotAPlanetMessage := "This doesn't look like a planet. Please try another image!"
  const AnalyzeFailedMessage := "Failed to analyze the image. Please try again."
  const FunFactsFailedMessage := "Failed to generate fun facts. Please try again."
  const QuizFailedMessage := "Failed to generate the quiz. Please try again."
  const NarrationFailedMessage := "Failed to generate narration. Please try again."

  /** The phrase whose presence, in any letter case, marks a non-planet answer. */
  const NotAPlanetPhrase := "not a planet"

  /** The identifier's answer is rejected: it is empty, or it says "not a planet". */
  predicate RejectedName(name: string) {
    name == "" || Includes(Lower(name), NotAPlanetPhrase)
  }

  /** Identifies the planet in a photo given as a data URI. */
  function IdentifyPlanetFromImage(svc: Services, photoDataUri: string): (r: ActionResult<string>)
    ensures svc.analyzeImage(photoDataUri).Threw? ==> r == Error(AnalyzeFailedMessage)
    ensures r.Data? <==> svc.analyzeImage(photoDataUri).Returned? && !RejectedName(svc.analyzeImage(photoDataUri).value)
    ensures r.Data? ==> r.value == svc.analyzeImage(photoDataUri).value && r.value != ""
    ensures svc.analyzeImage(photoDataUri).Returned? && RejectedName(svc.analyzeImage(photoDataUri).value) ==>
              r == Error(NotAPlanetMessage)
  {
    match svc.analyzeImage(photoDataUri)
    case Threw => Error(AnalyzeFailedMessage)
    case Returned(name) =>
      if RejectedName(name) then Error(NotAPlanetMessage) else Data(name)
  }

  /** An accepted name contains "not a planet" in no letter case at all. */
  lemma AcceptedNameHasNoNegativePhrase(svc: Services, photoDataUri: string, i: int)
    requires IdentifyPlanetFromImage(svc, photoDataUri).Data?
    requires 0 <= i <= |IdentifyPlanetFromImage(svc, photoDataUri).value| - |NotAPlanetPhrase|
    ensures var name := IdentifyPlanetFromImage(svc, photoDataUri).value;
            !EqualIgnoringCase(name[i..i + |NotAPlanetPhrase|], NotAPlanetPhrase)
  {
    var name := IdentifyPlanetFromImage(svc, photoDataUri).value;
    var window := name[i..i + |NotAPlanetPhrase|];
    if EqualIgnoringCase(window, NotAPlanetPhrase) {
      LowerIdentifiesCaseVariants(window, NotAPlanetPhrase);
      LowerSlice(name, i, i + |NotAPlanetPhrase|);
      assert Lower(NotAPlanetPhrase) == NotAPlanetPhrase;
      assert OccursAt(Lower(name), NotAPlanetPhrase, i);
      IncludesIffOccurs(Lower(name), NotAPlanetPhrase);
    }
  }

  /** A returned name holding "not a planet" in any letter case is rejected. */
  lemma NegativePhraseInAnyCaseIsRejected(svc: Services, photoDataUri: string, i: int)
    requires svc.analyzeImage(photoDataUri).Returned?
    requires var name := svc.analyzeImage(photoDataUri).value;
             0 <= i <= |name| - |NotAPlanetPhrase| &&
             EqualIgnoringCase(name[i..i + |NotAPlanetPhrase|], NotAPlanetPhrase)
    ensures IdentifyPlanetFromImage(svc, photoDataUri) == Error(NotAPlanetMessage)
  {
    if IdentifyPlanetFromImage(svc, photoDataUri).Data? {
      AcceptedNameHasNoNegativePhrase(svc, photoDataUri, i);
    }
  }

  /** The verdict on a name does not depend on its letter case. */
  lemma RejectionIgnoresCase(a: string, b: string)
    requires EqualIgnoringCase(a, b)
    ensures RejectedName(a) <==> RejectedName(b)
  {
    LowerIdentifiesCaseVariants(a, b);
  }

  /** Fetches the fun facts about a planet. */
  function GetFunFacts(svc: Services, planetName: string): (r: ActionResult<seq<string>>)
    ensures svc.generateFunFacts(planetName).Threw? <==> r == Error(FunFactsFailedMessage)
    ensures svc.generateFunFacts(planetName).Returned? ==> r == Data(svc.generateFunFacts(planetName).value)
  {
    match svc.generateFunFacts(planetName)
    case Threw => Error(FunFactsFailedMessage)
    case Returned(facts) => Data(facts)
  }

  /** The request the quiz action sends: the facts joined with single spaces. */
  function QuizRequestFor(planetName: string, funFacts: seq<string>): (q: QuizRequest)
    ensures q.planetName == planetName
    ensures q.funFacts == Join(funFacts, " ")
    ensures forall k :: 0 <= k < |funFacts| ==> Includes(q.funFacts, funFacts[k])
    ensures |funFacts| == 1 ==> q.funFacts == funFacts[0]
  {
    var joined := Join(funFacts, " ");
    assert forall k :: 0 <= k < |funFacts| ==> Includes(joined, funFacts[k]) by {
      forall k | 0 <= k < |funFacts| {
        JoinIncludesEachPart(funFacts, " ", k);
      }
    }
    QuizRequest(planetName, joined)
  }

  /** Generates the quiz for a planet from its facts. */
  function GetQuiz(svc: Services, planetName: string, funFacts: seq<string>): (r: ActionResult<seq<QuizQuestion>>)
    ensures svc.generateQuiz(QuizRequestFor(planetName, funFacts)).Threw? <==> r == Error(QuizFailedMessage)
    ensures svc.generateQuiz(QuizRequestFor(planetName, funFacts)).Returned? ==>
              r == Data(svc.generateQuiz(QuizRequestFor(planetName, funFacts)).value)
  {
    match svc.generateQuiz(QuizRequestFor(planetName, funFacts))
    case Threw => Error(QuizFailedMessage)
    case Returned(questions) => Data(questions)
  }

  /** Synthesises narration audio for a text; the audio comes back as a data URI. */
  function GetNarrationAudio(svc: Services, text: string): (r: ActionResult<string>)
    ensures svc.textToSpeech(text).Threw? <==> r == Error(NarrationFailedMessage)
    ensures svc.textToSpeech(text).Returned? ==> r == Data(svc.textToSpeech(text).value)
  {
    match svc.textToSpeech(text)
    case Threw => Error(NarrationFailedMessage)
    case Returned(audioDataUri) => Data(audioDataUri)
  }
}
