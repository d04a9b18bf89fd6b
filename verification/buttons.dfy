/**
 The button-visibility record of the capture dialog (PersonalPhoto.js) and the
 way its five click handlers replace it. The record is six independent flags;
 this module shows that the flags the handlers can actually produce are exactly
 the five workflow phases Idle, CameraOpen, Recording, RecordingStopped and
 PhotoCaptured, and derives the invariants of the record from that.
 */
module Buttons {
  import opened Media

  /** The `buttonVisible` state: which action button is rendered. */
  datatype ButtonVisible = ButtonVisible(
    openWebCam: bool,
    takePhoto: bool,
    startRec: bool,
    stopRec: bool,
    downloadRec: bool,
    downloadPhoto: bool)

  /** `initButtonVisible`: the record the dialog starts with and returns to on close. */
  const InitButtonVisible: ButtonVisible := ButtonVisible(true, false, true, false, false, false)

  /** The six action buttons of the dialog, one per flag. */
  datatype Button =
    | OpenWebCamButton
    | TakePhotoButton
    | StartRecButton
    | StopRecButton
    | DownloadRecButton
    | DownloadPhotoButton

  /** The flag that guards the rendering of `button`. */
  predicate Shows(b: ButtonVisible, button: Button)
  {
    match button
    case OpenWebCamButton => b.openWebCam
    case TakePhotoButton => b.takePhoto
    case StartRecButton => b.startRec
    case StopRecButton => b.stopRec
    case DownloadRecButton => b.downloadRec
    case DownloadPhotoButton => b.downloadPhoto
  }

  /** The set of action buttons the record renders. */
  function ShownButtons(b: ButtonVisible): (shown: set<Button>)
    ensures forall button :: button in shown <==> Shows(b, button)
  {
    (if b.openWebCam then {OpenWebCamButton} else {})
    + (if b.takePhoto then {TakePhotoButton} else {})
    + (if b.startRec then {StartRecButton} else {})
    + (if b.stopRec then {StopRecButton} else {})
    + (if b.downloadRec then {DownloadRecButton} else {})
    + (if b.downloadPhoto then {DownloadPhotoButton} else {})
  }

  /** The Save button in the title bar is rendered when a download button is. */
  predicate SaveVisible(b: ButtonVisible)
  {
    b.downloadRec || b.downloadPhoto
  }

  /** `handleOnClose`: back to the initial record, whatever was shown before. */
  function OnClose(b: ButtonVisible): (r: ButtonVisible)
    ensures ShownButtons(r) == {OpenWebCamButton, StartRecButton}
    ensures !SaveVisible(r)
  {
    InitButtonVisible
  }

  /** `handleOpenWebCam`: only "take photo" remains. */
  function OnOpenWebCam(b: ButtonVisible): (r: ButtonVisible)
    requires b.openWebCam
    ensures ShownButtons(r) == {TakePhotoButton}
    ensures !SaveVisible(r)
  {
    ButtonVisible(false, true, false, false, false, false)
  }

  /** `handleTakePhoto`: the photo can be retaken, recorded over, downloaded or saved. */
  function OnTakePhoto(b: ButtonVisible): (r: ButtonVisible)
    requires b.takePhoto
    ensures ShownButtons(r) == {OpenWebCamButton, StartRecButton, DownloadPhotoButton}
    ensures SaveVisible(r)
  {
    ButtonVisible(true, false, true, false, false, true)
  }

  /** `handleStartRec`: only "stop" remains. */
  function OnStartRec(b: ButtonVisible): (r: ButtonVisible)
    requires b.startRec
    ensures ShownButtons(r) == {StopRecButton}
    ensures !SaveVisible(r)
  {
    ButtonVisible(false, false, false, true, false, false)
  }

  /** `handleStopRec`: the recording can be downloaded or saved, or a new capture begun. */
  function OnStopRec(b: ButtonVisible): (r: ButtonVisible)
    requires b.stopRec
    ensures ShownButtons(r) == {OpenWebCamButton, StartRecButton, DownloadRecButton}
    ensures SaveVisible(r)
  {
    ButtonVisible(true, false, true, false, true, false)
  }

  /** A user action in the dialog. */
  datatype Click =
    | CloseClick          // the close icon, or the dialog's own close request
    | OpenWebCamClick
    | TakePhotoClick
    | StartRecClick
    | StopRecClick
    | DownloadRecClick
    | DownloadPhotoClick
    | SaveClick

  /** The action button a click is on; Close and Save are title-bar controls, not action buttons. */
  function ButtonOf(c: Click): Option<Button>
  {
    match c
    case CloseClick => None
    case OpenWebCamClick => Some(OpenWebCamButton)
    case TakePhotoClick => Some(TakePhotoButton)
    case StartRecClick => Some(StartRecButton)
    case StopRecClick => Some(StopRecButton)
    case DownloadRecClick => Some(DownloadRecButton)
    case DownloadPhotoClick => Some(DownloadPhotoButton)
    case SaveClick => None
  }

  /**
   A click can happen only on a control that is rendered: an action button
   when the record shows it, Save when it is visible, Close always.
   */
  function Enabled(b: ButtonVisible, c: Click): (enabled: bool)
    ensures c == CloseClick ==> enabled
    ensures c == SaveClick ==> (enabled <==> SaveVisible(b))
    ensures ButtonOf(c).Some? ==> (enabled <==> ButtonOf(c).value in ShownButtons(b))
  {
    match c
    case CloseClick => true
    case OpenWebCamClick => b.openWebCam
    case TakePhotoClick => b.takePhoto
    case StartRecClick => b.startRec
    case StopRecClick => b.stopRec
    case DownloadRecClick => b.downloadRec
    case DownloadPhotoClick => b.downloadPhoto
    case SaveClick => SaveVisible(b)
  }

  /**
   The record after a click. The download handlers do not touch it, and every
   branch of `handleSave` ends in `handleOnClose`. A click from a phase record
   always leads to a phase record.
   */
  function Next(b: ButtonVisible, c: Click): (r: ButtonVisible)
    requires Enabled(b, c)
    ensures c == DownloadRecClick || c == DownloadPhotoClick ==> r == b
    ensures c == CloseClick || c == SaveClick ==> r == InitButtonVisible
    ensures PhaseOf(b).Some? ==> PhaseOf(r).Some?
  {
    match c
    case CloseClick => OnClose(b)
    case OpenWebCamClick => OnOpenWebCam(b)
    case TakePhotoClick => OnTakePhoto(b)
    case StartRecClick => OnStartRec(b)
    case StopRecClick => OnStopRec(b)
    case DownloadRecClick => b
    case DownloadPhotoClick => b
    case SaveClick => OnClose(b)
  }

  /** Closing twice is closing once, and the prior record does not matter. */
  lemma CloseIgnoresPriorState(b1: ButtonVisible, b2: ButtonVisible)
    ensures OnClose(b1) == OnClose(b2) == OnClose(OnClose(b1)) == InitButtonVisible
  {
  }

  /** Replays a click sequence; None as soon as a click hits a control that is not rendered. */
  function Run(b: ButtonVisible, clicks: seq<Click>): Option<ButtonVisible>
    decreases |clicks|
  {
    if |clicks| == 0 then Some(b)
    else if Enabled(b, clicks[0]) then Run(Next(b, clicks[0]), clicks[1..])
    else None
  }

  /** A record the dialog can show after some sequence of clicks on rendered controls. */
  ghost predicate Reachable(b: ButtonVisible)
  {
    exists clicks :: Run(InitButtonVisible, clicks) == Some(b)
  }

  /** The workflow phases the six flags stand for. */
  datatype Phase = Idle | CameraOpen | Recording | RecordingStopped | PhotoCaptured

  /** The record each phase is shown with. */
  function Flags(p: Phase): ButtonVisible
  {
    match p
    case Idle => ButtonVisible(true, false, true, false, false, false)
    case CameraOpen => ButtonVisible(false, true, false, false, false, false)
    case Recording => ButtonVisible(false, false, false, true, false, false)
    case RecordingStopped => ButtonVisible(true, false, true, false, true, false)
    case PhotoCaptured => ButtonVisible(true, false, true, false, false, true)
  }

  /** The phase a record stands for, if any: the inverse of Flags. */
  function PhaseOf(b: ButtonVisible): (p: Option<Phase>)
    ensures p.Some? ==> Flags(p.value) == b
    ensures p.None? ==> forall q :: Flags(q) != b
  {
    if b == Flags(Idle) then Some(Idle)
    else if b == Flags(CameraOpen) then Some(CameraOpen)
    else if b == Flags(Recording) then Some(Recording)
    else if b == Flags(RecordingStopped) then Some(RecordingStopped)
    else if b == Flags(PhotoCaptured) then Some(PhotoCaptured)
    else None
  }

  /** Distinct phases are shown with distinct records. */
  lemma PhaseOfFlags(p: Phase)
    ensures PhaseOf(Flags(p)) == Some(p)
  {
  }

  /** The transition table of the workflow, stated over phases. */
  predicate PhaseEnabled(p: Phase, c: Click)
  {
    match c
    case CloseClick => true
    case OpenWebCamClick => p in {Idle, RecordingStopped, PhotoCaptured}
    case TakePhotoClick => p == CameraOpen
    case StartRecClick => p in {Idle, RecordingStopped, PhotoCaptured}
    case StopRecClick => p == Recording
    case DownloadRecClick => p == RecordingStopped
    case DownloadPhotoClick => p == PhotoCaptured
    case SaveClick => p in {RecordingStopped, PhotoCaptured}
  }

  function PhaseNext(p: Phase, c: Click): Phase
    requires PhaseEnabled(p, c)
  {
    match c
    case CloseClick => Idle
    case OpenWebCamClick => CameraOpen
    case TakePhotoClick => PhotoCaptured
    case StartRecClick => Recording
    case StopRecClick => RecordingStopped
    case DownloadRecClick => p
    case DownloadPhotoClick => p
    case SaveClick => Idle
  }

  /** The flag handlers and the phase table agree on every click from every phase. */
  lemma NextMatchesPhaseTable(p: Phase, c: Click)
    ensures Enabled(Flags(p), c) <==> PhaseEnabled(p, c)
    ensures PhaseEnabled(p, c) ==> Next(Flags(p), c) == Flags(PhaseNext(p, c))
  {
  }

  function RunPhases(p: Phase, clicks: seq<Click>): Option<Phase>
    decreases |clicks|
  {
    if |clicks| == 0 then Some(p)
    else if PhaseEnabled(p, clicks[0]) then RunPhases(PhaseNext(p, clicks[0]), clicks[1..])
    else None
  }

  function FlagsOf(p: Option<Phase>): Option<ButtonVisible>
  {
    match p
    case None => None
    case Some(q) => Some(Flags(q))
  }

  /** Replaying clicks on the flags is replaying them on the phases. */
  lemma {:induction false} RunFollowsPhases(p: Phase, clicks: seq<Click>)
    ensures Run(Flags(p), clicks) == FlagsOf(RunPhases(p, clicks))
    decreases |clicks|
  {
    if |clicks| > 0 {
      NextMatchesPhaseTable(p, clicks[0]);
      if PhaseEnabled(p, clicks[0]) {
        RunFollowsPhases(PhaseNext(p, clicks[0]), clicks[1..]);
      }
    }
  }

  /** A shortest click sequence that leads from the initial record to each phase. */
  function ClicksTo(p: Phase): (clicks: seq<Click>)
    ensures Run(InitButtonVisible, clicks) == Some(Flags(p))
  {
    match p
    case Idle => []
    case CameraOpen => [OpenWebCamClick]
    case Recording => [StartRecClick]
    case RecordingStopped => [StartRecClick, StopRecClick]
    case PhotoCaptured => [OpenWebCamClick, TakePhotoClick]
  }

  /** The reachable records are exactly the five phase records. */
  lemma ReachableIffPhase(b: ButtonVisible)
    ensures Reachable(b) <==> PhaseOf(b).Some?
  {
    if Reachable(b) {
      var clicks :| Run(InitButtonVisible, clicks) == Some(b);
      RunFollowsPhases(Idle, clicks);
    }
    if PhaseOf(b).Some? {
      var clicks := ClicksTo(PhaseOf(b).value);
      assert Run(InitButtonVisible, clicks) == Some(b);
    }
  }

  /** Invariants of every reachable record. */
  lemma ReachableInvariants(b: ButtonVisible)
    requires Reachable(b)
    ensures !(b.downloadRec && b.downloadPhoto)
    ensures b.stopRec ==> ShownButtons(b) == {StopRecButton}
    ensures b.takePhoto ==> ShownButtons(b) == {TakePhotoButton}
    ensures b.openWebCam <==> b.startRec
    ensures SaveVisible(b) ==> b.openWebCam && b.startRec
  {
    ReachableIffPhase(b);
  }

  /** Reachable records may render two or three action buttons at once. */
  lemma SeveralButtonsShown()
    ensures |ShownButtons(Flags(Idle))| == 2
    ensures |ShownButtons(Flags(PhotoCaptured))| == 3
    ensures Reachable(Flags(PhotoCaptured))
  {
    assert ShownButtons(Flags(Idle)) == {OpenWebCamButton} + {StartRecButton};
    assert ShownButtons(Flags(PhotoCaptured)) == {OpenWebCamButton, StartRecButton} + {DownloadPhotoButton};
    ReachableIffPhase(Flags(PhotoCaptured));
  }
}
