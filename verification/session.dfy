/** The application controller: the session record, the capture pipeline
    that calls the three actions in turn, quiz submission, reset, and the
    user-triggered transitions between phases. */
module Session {
  import opened Wrappers
  import opened Types
  import opened Actions
  import opened Scoring
  import opened Seqs

  datatype Phase = Idle | Capturing | Identifying | DisplayingFacts | Quizzing | Results

  /** Everything the controller holds for one session. */
  datatype Session = Session(
    phase: Phase,
    capturedImage: Option<string>,
    planetName: Option<string>,
    funFacts: seq<string>,
    quizQuestions: seq<QuizQuestion>,
    quizResult: Option<QuizResult>)

  /** The values the controller's state starts from when it is mounted. */
  function Initial(): Session {
    Session(Idle, None, None, [], [], None)
  }

  /** `resetState`: back to the start, whatever was collected so far. */
  function ResetState(): (r: Session)
    ensures r == Initial()
    ensures r.phase == Idle && r.capturedImage == None && r.planetName == None
    ensures r.funFacts == [] && r.quizQuestions == [] && r.quizResult == None
  {
    Session(Idle, None, None, [], [], None)
  }

  /** The states a capture passes through, in order, and the error shown, if any. */
  datatype Run = Run(states: seq<Session>, toast: Option<string>)

  /** All three actions of the capture pipeline return data. */
  predicate PipelineSucceeds(svc: Services, image: string) {
    var planet := IdentifyPlanetFromImage(svc, image);
    && planet.Data?
    && GetFunFacts(svc, planet.value).Data?
    && GetQuiz(svc, planet.value, GetFunFacts(svc, planet.value).value).Data?
  }

  /** `handleImageCapture`: store the photo and show the loader, then identify
      the planet, fetch its facts and generate the quiz, one after the other.
      The first error is shown and resets the session. */
  function HandleImageCapture(s: Session, image: string, svc: Services): (run: Run)
    ensures |run.states| >= 2
    ensures run.states[0] == s.(capturedImage := Some(image), phase := Identifying)
    ensures forall k :: 0 <= k < |run.states| - 1 ==> run.states[k].phase == Identifying
    ensures Last(run.states).phase == DisplayingFacts <==> PipelineSucceeds(svc, image)
    ensures PipelineSucceeds(svc, image) ==>
              var name := IdentifyPlanetFromImage(svc, image).value;
              var facts := GetFunFacts(svc, name).value;
              && Last(run.states) == s.(capturedImage := Some(image), planetName := Some(name), funFacts := facts,
                                        quizQuestions := GetQuiz(svc, name, facts).value, phase := DisplayingFacts)
              && run.toast == None
    ensures !PipelineSucceeds(svc, image) ==>
              && Last(run.states) == ResetState()
              && run.toast.Some?
              && forall k :: 0 <= k < |run.states| ==> run.states[k].phase != DisplayingFacts
  {
    var identifying := s.(capturedImage := Some(image), phase := Identifying);
    match IdentifyPlanetFromImage(svc, image)
    case Error(m) => Run([identifying, ResetState()], Some(m))
    case Data(name) =>
      var named := identifying.(planetName := Some(name));
      match GetFunFacts(svc, name)
      case Error(m) => Run([identifying, named, ResetState()], Some(m))
      case Data(facts) =>
        var withFacts := named.(funFacts := facts);
        match GetQuiz(svc, name, facts)
        case Error(m) => Run([identifying, named, withFacts, ResetState()], Some(m))
        case Data(questions) =>
          var withQuiz := withFacts.(quizQuestions := questions);
          Run([identifying, named, withFacts, withQuiz, withQuiz.(phase := DisplayingFacts)], None)
  }

  /** The error a failed capture shows is the message of the first action that failed. */
  lemma CaptureShowsFirstError(s: Session, image: string, svc: Services)
    ensures var run := HandleImageCapture(s, image, svc);
            var planet := IdentifyPlanetFromImage(svc, image);
            && (planet.Error? ==> run.toast == Some(planet.message) && |run.states| == 2)
            && (planet.Data? && GetFunFacts(svc, planet.value).Error? ==>
                  run.toast == Some(GetFunFacts(svc, planet.value).message) && |run.states| == 3)
            && (planet.Data? && GetFunFacts(svc, planet.value).Data? &&
                GetQuiz(svc, planet.value, GetFunFacts(svc, planet.value).value).Error? ==>
                  run.toast == Some(GetQuiz(svc, planet.value, GetFunFacts(svc, planet.value).value).message)
                  && |run.states| == 4)
  {
  }

  /** `handleQuizSubmit`: grade the answers and show the result. */
  function HandleQuizSubmit(s: Session, answers: Answers): (r: Session)
    ensures r.phase == Results
    ensures r.quizResult.Some?
    ensures r.quizResult.value.total == |s.quizQuestions|
    ensures r.quizResult.value.score == |CorrectIndices(s.quizQuestions, answers)|
    ensures 0 <= r.quizResult.value.score <= r.quizResult.value.total
    ensures r.(phase := s.phase, quizResult := s.quizResult) == s
  {
    s.(quizResult := Some(Grade(s.quizQuestions, answers)), phase := Results)
  }

  /** What the player can do; each is offered by one screen only. */
  datatype Event =
    | ScanPlanet
    | CancelCapture
    | CaptureImage(image: string)
    | StartQuiz
    | SubmitQuiz(answers: Answers)
    | Retry

  /** The screen shown in `phase` offers the control that raises `ev`. */
  predicate Offered(phase: Phase, ev: Event) {
    match ev
    case ScanPlanet => phase == Idle
    case CancelCapture => phase == Capturing
    case CaptureImage(_) => phase == Capturing
    case StartQuiz => phase == DisplayingFacts
    case SubmitQuiz(_) => phase == Quizzing
    case Retry => phase == Results
  }

  /** The phase changes a player action can cause. */
  predicate Edge(from: Phase, to: Phase) {
    || (from == Idle && to == Capturing)
    || (from == Capturing && to == Idle)
    || (from == Capturing && to == DisplayingFacts)
    || (from == DisplayingFacts && to == Quizzing)
    || (from == Quizzing && to == Results)
    || (from == Results && to == Idle)
  }

  /** The session after the player raises `ev`, the capture pipeline having run to its end. */
  function Step(s: Session, ev: Event, svc: Services): (r: Session)
    ensures !Offered(s.phase, ev) ==> r == s
    ensures Offered(s.phase, ev) ==> r.phase != s.phase && Edge(s.phase, r.phase)
    ensures Offered(s.phase, ev) && ev.ScanPlanet? ==> r == s.(phase := Capturing)
    ensures Offered(s.phase, ev) && ev.CancelCapture? ==> r == s.(phase := Idle)
    ensures Offered(s.phase, ev) && ev.CaptureImage? ==> r == Last(HandleImageCapture(s, ev.image, svc).states)
    ensures Offered(s.phase, ev) && ev.StartQuiz? ==> r == s.(phase := Quizzing)
    ensures Offered(s.phase, ev) && ev.SubmitQuiz? ==> r == HandleQuizSubmit(s, ev.answers)
    ensures Offered(s.phase, ev) && ev.Retry? ==> r == ResetState()
  {
    if !Offered(s.phase, ev) then s
    else
      match ev
      case ScanPlanet => s.(phase := Capturing)
      case CancelCapture => s.(phase := Idle)
      case CaptureImage(image) => Last(HandleImageCapture(s, image, svc).states)
      case StartQuiz => s.(phase := Quizzing)
      case SubmitQuiz(answers) => HandleQuizSubmit(s, answers)
      case Retry => ResetState()
  }

  /** Cancelling the camera returns to the start screen and changes nothing else. */
  lemma CancelChangesOnlyPhase(s: Session, svc: Services)
    requires s.phase == Capturing
    ensures Step(s, CancelCapture, svc) == s.(phase := Idle)
  {
  }

  /** The facts the screens rely on in every state the player can see. In
      particular the planet name and the result, which the facts and result
      screens read without a null check, are present there. */
  predicate Valid(s: Session) {
    && s.phase != Identifying
    && (s.quizResult.Some? <==> s.phase == Results)
    && (s.phase == Idle || s.phase == Capturing ==> s == ResetState().(phase := s.phase))
    && (s.phase == DisplayingFacts || s.phase == Quizzing || s.phase == Results ==>
          s.capturedImage.Some? && s.planetName.Some?)
    && (s.quizResult.Some? ==>
          s.quizResult.value.score <= s.quizResult.value.total == |s.quizQuestions|)
  }

  lemma StepPreservesValid(s: Session, ev: Event, svc: Services)
    requires Valid(s)
    ensures Valid(Step(s, ev, svc))
  {
  }

  /** One player action together with what the AI service answers while it is handled. */
  datatype Input = Input(event: Event, svc: Services)

  /** The session after a sequence of player actions. */
  function RunInputs(s: Session, inputs: seq<Input>): Session
    decreases |inputs|
  {
    if |inputs| == 0 then s
    else RunInputs(Step(s, inputs[0].event, inputs[0].svc), inputs[1..])
  }

  /** Every session the player can reach from mount is valid. */
  lemma {:induction false} ReachableIsValid(s: Session, inputs: seq<Input>)
    requires Valid(s)
    ensures Valid(RunInputs(s, inputs))
    decreases |inputs|
  {
    if |inputs| > 0 {
      StepPreservesValid(s, inputs[0].event, inputs[0].svc);
      ReachableIsValid(Step(s, inputs[0].event, inputs[0].svc), inputs[1..]);
    }
  }

  lemma InitialIsValid()
    ensures Valid(Initial())
  {
  }
}
