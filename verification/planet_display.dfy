/** The facts screen: the cartoon picked for the planet's name, and the
    narration button that reads the facts aloud or stops the reading. */
module PlanetDisplay {
  import opened Wrappers
  import opened Text
  import opened Actions
  import opened Seqs

  /** A cartoon picture and its search hint. */
  datatype PlanetImage = PlanetImage(src: string, hint: string)

  /** The keys of the eight planets' pictures. */
  const PlanetKeys: set<string> :=
    {"mercury", "venus", "earth", "mars", "jupiter", "saturn", "uranus", "neptune"}

  /** The picture table: one entry per planet and a `default` one. */
  const PlanetImages: map<string, PlanetImage> := map[
    "mercury" := PlanetImage("https://hobart.k12.in.us/cside/Hitchhiker/mercury.gif", "cartoon mercury"),
    "venus" := PlanetImage("https://i.pinimg.com/564x/0f/a5/31/0fa531643954939ec86201276cada5ad.jpg", "cartoon venus"),
    "earth" := PlanetImage("https://static.vecteezy.com/system/resources/thumbnails/002/297/979/small_2x/planet-illustration-of-the-planet-earth-planet-with-t-shirts-and-ode-cartoon-style-free-vector.jpg", "cartoon earth"),
    "mars" := PlanetImage("https://i.fbcd.co/products/resized/resized-750-500/1806-m10-i006-n007-e06p-cc9a318359dbb8c2c3d1466cb5e8c20b2f18a7a017e73d9a9b6c4d12bb74e595.webp", "cartoon mars"),
    "jupiter" := PlanetImage("https://encrypted-tbn0.gstatic.com/images?q=tbn:ANd9GcRadeylm7xbJeBBSkZVTiLQD4WAyEDOOW8lsA&s", "cartoon jupiter"),
    "saturn" := PlanetImage("https://www.shutterstock.com/image-vector/saturn-planet-vector-icon-isolated-260nw-2591459667.jpg", "cartoon saturn"),
    "uranus" := PlanetImage("https://static.vecteezy.com/system/resources/previews/002/728/980/non_2x/sticker-template-with-uranus-planet-isolated-free-vector.jpg", "cartoon uranus"),
    "neptune" := PlanetImage("https://img.freepik.com/premium-vector/neptune_1123339-2152.jpg", "cartoon neptune"),
    "default" := PlanetImage("https://t3.ftcdn.net/jpg/01/93/13/54/360_F_193135491_La4vpQjhnLojIZB1AERxh4Tu9RL0YdHj.jpg", "cartoon planet")
  ]

  const DefaultImage: PlanetImage := PlanetImages["default"]

  /** The picture for a planet name: its lower-cased form looked up among the
      table's own entries, falling back to the default picture. */
  function Lookup(planetName: string): (img: PlanetImage)
    ensures img in PlanetImages.Values
    ensures Lower(planetName) in PlanetKeys ==> img == PlanetImages[Lower(planetName)]
    ensures Lower(planetName) !in PlanetKeys ==> img == DefaultImage
  {
    var key := Lower(planetName);
    if key in PlanetImages then PlanetImages[key] else DefaultImage
  }

  /** Names that differ only in letter case get the same picture. */
  lemma LookupIgnoresCase(a: string, b: string)
    requires EqualIgnoringCase(a, b)
    ensures Lookup(a) == Lookup(b)
  {
    LowerIdentifiesCaseVariants(a, b);
  }

  /** A planet's own picture is the one whose hint names that planet; every other name shows the generic planet. */
  lemma LookupHint(planetName: string)
    ensures Lower(planetName) in PlanetKeys ==> Lookup(planetName).hint == "cartoon " + Lower(planetName)
    ensures Lower(planetName) !in PlanetKeys ==> Lookup(planetName).hint == "cartoon planet"
  {
  }

  /** What reading a property of the picture table gives in JavaScript: one of
      its own entries, a property the table inherits from `Object.prototype`
      (a truthy value that is not a picture), or nothing. */
  datatype Property = Own(image: PlanetImage) | Inherited(name: string) | Absent

  /** The all-lower-case property names every plain JavaScript object inherits. */
  const InheritedKeys: set<string> := {"constructor", "__proto__"}

  /** `planetImages[planetKey] || planetImages.default` as the code reads it:
      an inherited property is truthy, so it is returned instead of the default. */
  function LookupAsWritten(planetName: string): (p: Property)
    ensures p.Own? <==> Lower(planetName) !in InheritedKeys
  {
    var key := Lower(planetName);
    if key in PlanetImages then Own(PlanetImages[key])
    else if key in InheritedKeys then Inherited(key)
    else Own(DefaultImage)
  }

  /** A planet named "Constructor" gets no picture from the code as written. */
  lemma ConstructorGetsNoPicture()
    ensures LookupAsWritten("Constructor") == Inherited("constructor")
  {
    assert Lower("Constructor") == "constructor";
  }

  /** Apart from the inherited names, the code as written agrees with `Lookup`. */
  lemma LookupAgreesOutsideInheritedKeys(planetName: string)
    requires Lower(planetName) !in InheritedKeys
    ensures LookupAsWritten(planetName) == Own(Lookup(planetName))
  {
  }

  /** The narration button's two flags. */
  datatype Narration = Narration(isGenerating: bool, isNarrating: bool)

  /** The screen opens neither generating nor narrating. */
  const Silent := Narration(false, false)

  /** The text read aloud: the facts joined with ". ". */
  function NarrationText(funFacts: seq<string>): (text: string)
    ensures text == Join(funFacts, ". ")
    ensures forall k :: 0 <= k < |funFacts| ==> Includes(text, funFacts[k])
  {
    var text := Join(funFacts, ". ");
    assert forall k :: 0 <= k < |funFacts| ==> Includes(text, funFacts[k]) by {
      forall k | 0 <= k < |funFacts| {
        JoinIncludesEachPart(funFacts, ". ", k);
      }
    }
    text
  }

  /** The flag states a press goes through, the text sent for synthesis, the
      audio played and the error shown, if any. */
  datatype NarrateRun = NarrateRun(
    states: seq<Narration>,
    request: Option<string>,
    audioSrc: Option<string>,
    toast: Option<string>)

  /** `handleNarrate`: a press while busy stops the reading; otherwise the
      facts are sent for synthesis and, if audio comes back, played. */
  function HandleNarrate(st: Narration, funFacts: seq<string>, svc: Services): (run: NarrateRun)
    ensures |run.states| >= 1
    ensures st.isGenerating || st.isNarrating ==>
              && run.request == None && run.audioSrc == None && run.toast == None
              && !Last(run.states).isNarrating
              && Last(run.states).isGenerating == st.isGenerating
    ensures !st.isGenerating && !st.isNarrating ==>
              && run.request == Some(NarrationText(funFacts))
              && run.states[0].isGenerating
              && !Last(run.states).isGenerating
              && (Last(run.states).isNarrating <==> svc.textToSpeech(NarrationText(funFacts)).Returned?)
              && (run.audioSrc.Some? <==> svc.textToSpeech(NarrationText(funFacts)).Returned?)
              && (run.audioSrc.Some? ==> run.audioSrc.value == svc.textToSpeech(NarrationText(funFacts)).value)
              && run.toast == (if svc.textToSpeech(NarrationText(funFacts)).Threw? then Some(NarrationFailedMessage) else None)
  {
    if st.isGenerating || st.isNarrating then
      NarrateRun([st.(isNarrating := false)], None, None, None)
    else
      var generating := st.(isGenerating := true);
      var text := NarrationText(funFacts);
      var done := generating.(isGenerating := false);
      match GetNarrationAudio(svc, text)
      case Error(m) => NarrateRun([generating, done], Some(text), None, Some(m))
      case Data(audioDataUri) =>
        NarrateRun([generating, done, done.(isNarrating := true)], Some(text), Some(audioDataUri), None)
  }

  /** The audio element's `ended` handler. */
  function AudioEnded(st: Narration): (r: Narration)
    ensures !r.isNarrating
    ensures r.isGenerating == st.isGenerating
  {
    st.(isNarrating := false)
  }

  /** The button is disabled while audio is being generated. */
  predicate NarrateEnabled(st: Narration) {
    !st.isGenerating
  }

  /** What happens on the facts screen's narration control. */
  datatype NarrationEvent = Press(svc: Services) | Ended

  /** The flags after the press or event has been handled to the end. */
  function NarrationStep(st: Narration, ev: NarrationEvent, funFacts: seq<string>): (r: Narration)
    ensures ev.Ended? ==> r == AudioEnded(st)
    ensures ev.Press? && NarrateEnabled(st) ==> r == Last(HandleNarrate(st, funFacts, ev.svc).states)
    ensures ev.Press? && !NarrateEnabled(st) ==> r == st
  {
    match ev
    case Press(svc) =>
      if NarrateEnabled(st) then Last(HandleNarrate(st, funFacts, svc).states) else st
    case Ended => AudioEnded(st)
  }

  function NarrationAfter(st: Narration, evs: seq<NarrationEvent>, funFacts: seq<string>): Narration
    decreases |evs|
  {
    if |evs| == 0 then st
    else NarrationAfter(NarrationStep(st, evs[0], funFacts), evs[1..], funFacts)
  }

  /** The button toggles: from the mount state, a press whose synthesis returns
      starts narrating, and a second press stops it without another request. */
  lemma PressTwiceToggles(svc: Services, svc2: Services, funFacts: seq<string>)
    requires svc.textToSpeech(NarrationText(funFacts)).Returned?
    ensures NarrationAfter(Silent, [Press(svc)], funFacts) == Narration(false, true)
    ensures NarrationAfter(Silent, [Press(svc), Press(svc2)], funFacts) == Silent
  {
    var playing := NarrationStep(Silent, Press(svc), funFacts);
    assert playing == Narration(false, true);
    assert [Press(svc)][1..] == [];
    assert NarrationAfter(Silent, [Press(svc)], funFacts) == NarrationAfter(playing, [], funFacts);
    var evs := [Press(svc), Press(svc2)];
    assert evs[1..] == [Press(svc2)];
    assert [Press(svc2)][1..] == [];
    assert NarrationStep(playing, Press(svc2), funFacts) == Silent;
    calc {
      NarrationAfter(Silent, evs, funFacts);
      NarrationAfter(playing, [Press(svc2)], funFacts);
      NarrationAfter(Silent, [], funFacts);
    }
  }

  /** From the screen's mount state, whatever the player does, the button is
      never left generating between events. */
  lemma SilentNeverLeftGenerating(evs: seq<NarrationEvent>, funFacts: seq<string>)
    ensures !NarrationAfter(Silent, evs, funFacts).isGenerating
  {
    NeverLeftGenerating(Silent, evs, funFacts);
  }

  /** Between events the button is never left generating, so it is always
      enabled and a press while narrating stops without calling the service. */
  lemma {:induction false} NeverLeftGenerating(st: Narration, evs: seq<NarrationEvent>, funFacts: seq<string>)
    requires !st.isGenerating
    ensures !NarrationAfter(st, evs, funFacts).isGenerating
    decreases |evs|
  {
    if |evs| > 0 {
      NeverLeftGenerating(NarrationStep(st, evs[0], funFacts), evs[1..], funFacts);
    }
  }
}
