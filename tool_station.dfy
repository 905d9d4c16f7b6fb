/** The prototype tool-station screen (ToolStationComponent.tsx): a state
    machine start → action → capture → review → processing → result over the
    component's React state, with a simulated recognition outcome and a manual
    confirmation of a partial match. Camera streams, canvases and file readers
    are outside the model; what they deliver (a data URL, whether a DOM
    element is mounted) is passed in. */
module ToolStation {
  import opened Wrappers
  import opened Text

  datatype StationStep = StartStep | ActionStep | CaptureStep | ReviewStep | ProcessingStep | ResultStep

  datatype RecognitionResult = RecognitionResult(matchPercent: int, missingTools: seq<string>)

  /** The two outcomes the simulated recognition produces. */
  const FullMatch := RecognitionResult(100, [])
  const PartialMatch := RecognitionResult(91, ["Отвертка на смещенный крест"])

  /** The outcome when the draw of Math.random() is above 0.3, or not. */
  function Outcome(success: bool): RecognitionResult {
    if success then FullMatch else PartialMatch
  }

  /** The kit is shown accepted ('Комплект принят!') exactly when the match is
      complete or it was confirmed manually. */
  predicate Accepted(r: RecognitionResult, manualCheck: bool) {
    r.matchPercent == 100 || manualCheck
  }

  /** The 'Подтвердить вручную' button. */
  predicate ManualConfirmOffered(r: RecognitionResult, manualCheck: bool) {
    !manualCheck && r.matchPercent < 100
  }

  function Headline(r: RecognitionResult, manualCheck: bool): string {
    if Accepted(r, manualCheck) then "Комплект принят!" else "Обнаружено несоответствие!"
  }

  function MatchText(r: RecognitionResult, manualCheck: bool): string {
    if manualCheck then "Подтверждено вручную" else IntToString(r.matchPercent) + "%"
  }

  /** The 'Не найдено' line, shown while there are missing tools and no manual confirmation. */
  function MissingText(r: RecognitionResult, manualCheck: bool): Option<string> {
    if |r.missingTools| > 0 && !manualCheck then Some("Не найдено: " + Join(r.missingTools, ", ")) else None
  }

  /** Confirmation is never offered for a kit already shown accepted, and a
      confirmed kit is accepted whatever its match. */
  lemma OfferedOnlyWhenRejected(r: RecognitionResult, manualCheck: bool)
    ensures ManualConfirmOffered(r, manualCheck) ==> !Accepted(r, manualCheck)
    ensures Accepted(r, true) && !ManualConfirmOffered(r, true)
    ensures MissingText(r, true) == None && MatchText(r, true) == "Подтверждено вручную"
  {
  }

  /** The two simulated outcomes: a full match is accepted without any
      button; the partial match is accepted exactly when confirmed, offers the
      button until then and names the missing screwdriver. */
  lemma Outcomes(manualCheck: bool)
    ensures Accepted(FullMatch, manualCheck) && !ManualConfirmOffered(FullMatch, manualCheck)
    ensures MissingText(FullMatch, manualCheck) == None
    ensures Accepted(PartialMatch, manualCheck) <==> manualCheck
    ensures ManualConfirmOffered(PartialMatch, manualCheck) <==> !manualCheck
    ensures !manualCheck ==> MissingText(PartialMatch, manualCheck) == Some("Не найдено: Отвертка на смещенный крест")
  {
    assert Join(PartialMatch.missingTools, ", ") == "Отвертка на смещенный крест";
    assert "Не найдено: " + "Отвертка на смещенный крест" == "Не найдено: Отвертка на смещенный крест";
  }

  /** The component's state, as one value. */
  datatype StationState = StationState(
    tabNumber: string,
    step: StationStep,
    photo: Option<string>,
    result: Option<RecognitionResult>,
    manualCheck: bool,
    streaming: bool,
    cameraId: string)

  const Initial := StationState("", StartStep, None, None, false, false, "")

  /** resetAll: back to the start with the number, photo, result and manual
      confirmation cleared; the camera fields are kept. */
  function Reset(s: StationState): (r: StationState)
    ensures r.step == StartStep && r.tabNumber == "" && r.photo == None && r.result == None && !r.manualCheck
    ensures r.streaming == s.streaming && r.cameraId == s.cameraId
  {
    s.(tabNumber := "", photo := None, result := None, manualCheck := false, step := StartStep)
  }

  /** What the user and the browser can do. The camera stream, the file
      reader and the timer are outside; their results arrive as events. */
  datatype StationEvent =
    | TabNumberTyped(text: string)
    | StartPressed
    | ReturnChosen
    | CamerasListed(deviceIds: seq<string>)
    | CameraSelected(deviceId: string)
    | CameraStarted
    | CameraStopped
    | PhotoTaken(dataUrl: string)
    | FileChosen
    | FileLoaded(dataUrl: string)
    | Submitted
    | TimerFired(success: bool)
    | ConfirmPressed
    | ResetPressed

  /** The card rendered for the step: review only with a photo, result only
      with a result. */
  predicate CardShown(s: StationState) {
    match s.step
    case ReviewStep => s.photo.Some?
    case ResultStep => s.result.Some?
    case _ => true
  }

  /** The effect of an event, through the element the rendered card offers for
      it; an event the card does not offer changes nothing. The capture card
      mounts the video and canvas elements, so both refs exist there. The list
      of cameras and the file reader's load arrive whatever the step; the
      timer is only pending while processing, where the card has no button. */
  function Handle(s: StationState, e: StationEvent): StationState {
    var shown := CardShown(s);
    match e
    case TabNumberTyped(t) =>
      if s.step == StartStep then s.(tabNumber := t) else s
    case StartPressed =>
      if s.step == StartStep && s.tabNumber != "" then s.(step := ActionStep) else s
    case ReturnChosen =>
      if s.step == ActionStep then s.(step := CaptureStep) else s
    case CamerasListed(ids) =>
      if |ids| > 0 then s.(cameraId := ids[0]) else s
    case CameraSelected(id) =>
      if s.step == CaptureStep then s.(cameraId := id) else s
    case CameraStarted =>
      if s.step == CaptureStep && !s.streaming && s.cameraId != "" then s.(streaming := true) else s
    case CameraStopped =>
      if s.step == CaptureStep && s.streaming then s.(streaming := false) else s
    case PhotoTaken(url) =>
      if s.step == CaptureStep && s.streaming then s.(photo := Some(url), streaming := false, step := ReviewStep) else s
    case FileChosen =>
      if s.step == CaptureStep then s.(step := ReviewStep) else s
    case FileLoaded(url) =>
      s.(photo := Some(url))
    case Submitted =>
      if s.step == ReviewStep && shown then s.(step := ProcessingStep) else s
    case TimerFired(success) =>
      if s.step == ProcessingStep then s.(result := Some(Outcome(success)), step := ResultStep) else s
    case ConfirmPressed =>
      if s.step == ResultStep && shown && ManualConfirmOffered(s.result.value, s.manualCheck)
      then s.(manualCheck := true) else s
    case ResetPressed =>
      if (s.step == ReviewStep || s.step == ResultStep) && shown then Reset(s) else s
  }

  function Run(s: StationState, events: seq<StationEvent>): StationState
    decreases |events|
  {
    if events == [] then s else Run(Handle(s, events[0]), events[1..])
  }

  /** What holds in every state the screen reaches: past the start the number
      is non-empty, a result is one of the two outcomes and is there on the
      result step, and a manual confirmation only ever confirms the partial
      match on the result step. */
  predicate Reachable(s: StationState) {
    (s.step != StartStep ==> s.tabNumber != "") &&
    (s.step == ResultStep ==> s.result.Some?) &&
    (s.result.Some? ==> s.result.value == FullMatch || s.result.value == PartialMatch) &&
    (s.manualCheck ==> s.step == ResultStep && s.result == Some(PartialMatch))
  }

  lemma HandleKeepsReachable(s: StationState, e: StationEvent)
    requires Reachable(s)
    ensures Reachable(Handle(s, e))
  {
  }

  lemma {:induction false} RunKeepsReachable(s: StationState, events: seq<StationEvent>)
    requires Reachable(s)
    ensures Reachable(Run(s, events))
    decreases |events|
  {
    if events != [] {
      HandleKeepsReachable(s, events[0]);
      RunKeepsReachable(Handle(s, events[0]), events[1..]);
    }
  }

  /** From the initial state, whatever happens: the screen leaves the start
      only with a tab number, the result card always has a result, and on it
      the kit is either shown accepted or offered for manual confirmation,
      never both and never neither. */
  lemma StationInvariants(events: seq<StationEvent>)
    ensures var s := Run(Initial, events);
      (s.step != StartStep ==> s.tabNumber != "") &&
      (s.step == ResultStep ==>
        s.result.Some? &&
        (Accepted(s.result.value, s.manualCheck) <==> !ManualConfirmOffered(s.result.value, s.manualCheck)))
  {
    RunKeepsReachable(Initial, events);
  }

  /** The start button moves on exactly when a tab number was typed. */
  lemma StartNeedsTabNumber(s: StationState)
    requires s.step == StartStep
    ensures Handle(s, StartPressed).step == ActionStep <==> s.tabNumber != ""
    ensures s.tabNumber == "" ==> Handle(s, StartPressed) == s
  {
  }

  /** Confirming a partial match on the result card accepts the kit. */
  lemma ConfirmAccepts(s: StationState)
    requires s.step == ResultStep && s.result == Some(PartialMatch) && !s.manualCheck
    ensures !Accepted(s.result.value, s.manualCheck)
    ensures var t := Handle(s, ConfirmPressed);
      t == s.(manualCheck := true) && Accepted(t.result.value, t.manualCheck) &&
      !ManualConfirmOffered(t.result.value, t.manualCheck)
  {
  }

  /** The component's state as fields its handlers update. */
  class Station {
    var tabNumber: string
    var step: StationStep
    var photo: Option<string>
    var result: Option<RecognitionResult>
    var manualCheck: bool
    var streaming: bool
    var cameraId: string

    function State(): StationState
      reads this
    {
      StationState(tabNumber, step, photo, result, manualCheck, streaming, cameraId)
    }

    constructor ()
      ensures State() == Initial
    {
      tabNumber := "";
      step := StartStep;
      photo := None;
      result := None;
      manualCheck := false;
      streaming := false;
      cameraId := "";
    }

    method SetTabNumber(t: string)
      modifies this
      ensures State() == old(State()).(tabNumber := t)
    {
      tabNumber := t;
    }

    /** The start button: `tabNumber && setStep('action')`. */
    method PressStart()
      modifies this
      ensures State() == if old(tabNumber) != "" then old(State()).(step := ActionStep) else old(State())
    {
      if tabNumber != "" {
        step := ActionStep;
      }
    }

    /** The 'Сдать инструменты' button. */
    method ChooseReturn()
      modifies this
      ensures State() == old(State()).(step := CaptureStep)
    {
      step := CaptureStep;
    }

    /** The first video input found, if any, becomes the camera. */
    method CamerasListed(deviceIds: seq<string>)
      modifies this
      ensures State() == if |deviceIds| > 0 then old(State()).(cameraId := deviceIds[0]) else old(State())
    {
      if |deviceIds| > 0 {
        cameraId := deviceIds[0];
      }
    }

    method SelectCamera(id: string)
      modifies this
      ensures State() == old(State()).(cameraId := id)
    {
      cameraId := id;
    }

    /** startCamera: nothing without a camera id; streaming once the stream is
        attached to a mounted video element. */
    method StartCamera(videoMounted: bool)
      modifies this
      ensures State() == if old(cameraId) != "" && videoMounted then old(State()).(streaming := true) else old(State())
    {
      if cameraId == "" {
        return;
      }
      if videoMounted {
        streaming := true;
      }
    }

    method StopCamera()
      modifies this
      ensures State() == old(State()).(streaming := false)
    {
      streaming := false;
    }

    /** takePhoto: nothing unless both the video and the canvas element exist;
        otherwise the frame becomes the photo, the camera stops and the photo
        is shown for review. */
    method TakePhoto(videoMounted: bool, canvasMounted: bool, dataUrl: string)
      modifies this
      ensures State() == if videoMounted && canvasMounted
        then old(State()).(photo := Some(dataUrl), streaming := false, step := ReviewStep)
        else old(State())
    {
      if !videoMounted || !canvasMounted {
        return;
      }
      photo := Some(dataUrl);
      StopCamera();
      step := ReviewStep;
    }

    /** readFile: the review step at once; the photo when the reader loads. */
    method ReadFile()
      modifies this
      ensures State() == old(State()).(step := ReviewStep)
    {
      step := ReviewStep;
    }

    method FileLoaded(dataUrl: string)
      modifies this
      ensures State() == old(State()).(photo := Some(dataUrl))
    {
      photo := Some(dataUrl);
    }

    /** processPhoto: processing until the timer fires. */
    method ProcessPhoto()
      modifies this
      ensures State() == old(State()).(step := ProcessingStep)
    {
      step := ProcessingStep;
    }

    /** The timer's callback: one of the two outcomes, then the result card. */
    method TimerFired(success: bool)
      modifies this
      ensures State() == old(State()).(result := Some(Outcome(success)), step := ResultStep)
    {
      if success {
        result := Some(FullMatch);
      } else {
        result := Some(PartialMatch);
      }
      step := ResultStep;
    }

    method ConfirmManually()
      modifies this
      ensures State() == old(State()).(manualCheck := true)
    {
      manualCheck := true;
    }

    method ResetAll()
      modifies this
      ensures State() == Reset(old(State()))
    {
      tabNumber := "";
      photo := None;
      result := None;
      manualCheck := false;
      step := StartStep;
    }

    /** An event, through the handler the rendered card wires to it. */
    method Dispatch(e: StationEvent)
      modifies this
      ensures State() == Handle(old(State()), e)
    {
      var shown := CardShown(State());
      match e
      case TabNumberTyped(t) =>
        if step == StartStep { SetTabNumber(t); }
      case StartPressed =>
        if step == StartStep { PressStart(); }
      case ReturnChosen =>
        if step == ActionStep { ChooseReturn(); }
      case CamerasListed(ids) =>
        CamerasListed(ids);
      case CameraSelected(id) =>
        if step == CaptureStep { SelectCamera(id); }
      case CameraStarted =>
        if step == CaptureStep && !streaming { StartCamera(true); }
      case CameraStopped =>
        if step == CaptureStep && streaming { StopCamera(); }
      case PhotoTaken(url) =>
        if step == CaptureStep && streaming { TakePhoto(true, true, url); }
      case FileChosen =>
        if step == CaptureStep { ReadFile(); }
      case FileLoaded(url) =>
        FileLoaded(url);
      case Submitted =>
        if step == ReviewStep && shown { ProcessPhoto(); }
      case TimerFired(success) =>
        if step == ProcessingStep { TimerFired(success); }
      case ConfirmPressed =>
        if step == ResultStep && shown && ManualConfirmOffered(result.value, manualCheck) { ConfirmManually(); }
      case ResetPressed =>
        if (step == ReviewStep || step == ResultStep) && shown { ResetAll(); }
    }
  }
}
