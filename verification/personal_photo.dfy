/**
 The capture dialog (PersonalPhoto.js): what it renders from its button record and
 the hook's flags, what Save hands to the host form, and the whole component as a
 machine driven by user clicks and by the browser's answers.

 Each event a user can cause is allowed only while the control it comes from is
 rendered; the browser answers only an outstanding camera request, and delivers
 chunks only to a recorder that exists.
 */
module PersonalPhoto {
  import opened Media
  import opened Buttons
  import opened WebRtcHook

  // ---------------------------------------------------------------- rendering

  /** What the dialog shows. */
  datatype View = View(
    saveButton: bool,
    errorMessage: bool,
    spinner: bool,
    actionButtons: set<Button>,
    livePlayer: bool,
    playbackPlayer: bool,
    canvas: bool)

  /**
   The dialog's JSX. The Save button sits in the title bar and depends on the
   record only; the action buttons, both players and the canvas sit in one
   container that is hidden while the hook is loading or in error.
   */
  function Render(b: ButtonVisible, isLoading: bool, isError: bool): (v: View)
    ensures v.saveButton <==> b.downloadRec || b.downloadPhoto
    ensures v.errorMessage == isError && v.spinner == isLoading
    ensures isLoading || isError ==>
              v.actionButtons == {} && !v.livePlayer && !v.playbackPlayer && !v.canvas
    ensures !(isLoading || isError) ==> v.actionButtons == ShownButtons(b)
    ensures v.livePlayer <==> !isLoading && !isError && (b.stopRec || b.takePhoto)
    ensures v.playbackPlayer <==> !isLoading && !isError && b.downloadRec
    ensures v.canvas <==> !isLoading && !isError && b.downloadPhoto
  {
    var hidden := isLoading || isError;
    View(
      SaveVisible(b),
      isError,
      isLoading,
      if hidden then {} else ShownButtons(b),
      !hidden && (b.stopRec || b.takePhoto),
      !hidden && b.downloadRec,
      !hidden && b.downloadPhoto)
  }

  /** How many of the live player, the playback player and the canvas are shown. */
  function MediaShown(v: View): nat
  {
    (if v.livePlayer then 1 else 0) + (if v.playbackPlayer then 1 else 0) + (if v.canvas then 1 else 0)
  }

  /**
   In every phase the dialog can reach, the element shown is the one the phase
   is about, and at most one of them is shown; Save appears exactly when there
   is a capture to save.
   */
  lemma ReachableViewMatchesPhase(b: ButtonVisible, isLoading: bool, isError: bool)
    requires Buttons.Reachable(b)
    ensures PhaseOf(b).Some?
    ensures var p, v := PhaseOf(b).value, Render(b, isLoading, isError);
            && MediaShown(v) <= 1
            && (v.saveButton <==> p == RecordingStopped || p == PhotoCaptured)
            && (!isLoading && !isError ==>
                  && (v.livePlayer <==> p == CameraOpen || p == Recording)
                  && (v.playbackPlayer <==> p == RecordingStopped)
                  && (v.canvas <==> p == PhotoCaptured))
  {
    ReachableIffPhase(b);
  }

  // ---------------------------------------------------------------- saving

  /** What `handleSave` leaves: the record, the files given to the host, and whether the dialog closes. */
  datatype SaveResult = SaveResult(buttons: ButtonVisible, handed: seq<NamedFile>, closes: bool)

  /**
   `handleSave` as written: the video branch hands the buffered chunks as a webm
   file; the photo branch encodes the canvas with the defaults of getPhotoByBlob,
   which give JPEG, and names the file ".png". Each file is built with
   `new File([blob], name)` and no type option, so its own type is empty. The
   photo's asynchronous encoding is folded into one step. Every branch ends in
   `handleOnClose`.
   */
  function HandleSaveAsWritten(b: ButtonVisible, h: Hook, canvas: Canvas, timestamp: string): (r: SaveResult)
    ensures r.buttons == InitButtonVisible && r.closes
    ensures |r.handed| == if b.downloadRec || b.downloadPhoto then 1 else 0
    ensures forall i :: 0 <= i < |r.handed| ==> r.handed[i].fileType == ""
    ensures b.downloadRec ==>
              && r.handed[0].name == FileName(timestamp, VideoExtension)
              && r.handed[0].content.VideoData?
              && r.handed[0].content.video.data == Concat(h.recordedChunks)
              && r.handed[0].content.video.mimeType == "video/webm"
    ensures !b.downloadRec && b.downloadPhoto ==>
              && r.handed[0].name == FileName(timestamp, PhotoExtension)
              && r.handed[0].content == ImageData(ImageBlob(canvas, "image/jpeg", 1.0))
  {
    if b.downloadRec then
      SaveResult(OnClose(b), [NamedFile(FileName(timestamp, VideoExtension), UntypedFile, VideoData(GetVideoByBlob(h)))], true)
    else if b.downloadPhoto then
      SaveResult(OnClose(b), [NamedFile(FileName(timestamp, PhotoExtension), UntypedFile, ImageData(GetPhotoByBlob(canvas)))], true)
    else
      SaveResult(OnClose(b), [], true)
  }

  /** Whether `name` is "WebRTC_" followed by something and then `extension`. */
  predicate NamedWith(name: string, extension: string)
  {
    && |FilePrefix| + |extension| <= |name|
    && name[..|FilePrefix|] == FilePrefix
    && name[|name| - |extension|..] == extension
  }

  /** The extension of a file's name announces the type of its content. */
  predicate NameMatchesType(f: NamedFile)
  {
    match f.content
    case VideoData(v) => NamedWith(f.name, VideoExtension) && v.mimeType == VideoMimeType
    case ImageData(i) => NamedWith(f.name, PhotoExtension) && i.mimeType == PngMimeType
  }

  /** The photo the dialog saves as written is JPEG data under a ".png" name. */
  lemma SavedPhotoIsJpegNamedPng(b: ButtonVisible, h: Hook, canvas: Canvas, timestamp: string)
    requires !b.downloadRec && b.downloadPhoto
    ensures var f := HandleSaveAsWritten(b, h, canvas, timestamp).handed[0];
            && f.name[|f.name| - 4..] == ".png"
            && f.content.ImageData? && f.content.image.mimeType == "image/jpeg"
            && !NameMatchesType(f)
  {
    var f := HandleSaveAsWritten(b, h, canvas, timestamp).handed[0];
    assert f.content.image.mimeType != PngMimeType by {
      assert f.content.image.mimeType[6] == 'j';
    }
  }

  /**
   `handleSave` with the photo encoded as PNG, as its file name says; all else
   as written. The video is exported as the hook's buffer stands at the click.
   */
  function HandleSave(b: ButtonVisible, h: Hook, canvas: Canvas, timestamp: string): (r: SaveResult)
    ensures r.buttons == InitButtonVisible && r.closes
    ensures b.downloadRec ==>
              && |r.handed| == 1
              && r.handed[0].name == FileName(timestamp, VideoExtension)
              && r.handed[0].content == VideoData(GetVideoByBlob(h))
    ensures !b.downloadRec && b.downloadPhoto ==>
              && |r.handed| == 1
              && r.handed[0].name == FileName(timestamp, PhotoExtension)
              && r.handed[0].content == ImageData(ImageBlob(canvas, PngMimeType, DefaultPhotoQuality))
    ensures !b.downloadRec && !b.downloadPhoto ==> r.handed == []
    ensures forall i :: 0 <= i < |r.handed| ==> NameMatchesType(r.handed[i]) && r.handed[i].fileType == ""
  {
    if b.downloadRec then
      var f := NamedFile(FileName(timestamp, VideoExtension), UntypedFile, VideoData(GetVideoByBlob(h)));
      SaveResult(OnClose(b), [f], true)
    else if b.downloadPhoto then
      var f := NamedFile(FileName(timestamp, PhotoExtension), UntypedFile, ImageData(GetPhotoByBlob(canvas, PngMimeType)));
      SaveResult(OnClose(b), [f], true)
    else
      SaveResult(OnClose(b), [], true)
  }

  /** The correction changes the encoding of the saved photo and nothing else. */
  lemma SaveDiffersOnlyInPhotoType(b: ButtonVisible, h: Hook, canvas: Canvas, timestamp: string)
    ensures var fixed, written := HandleSave(b, h, canvas, timestamp), HandleSaveAsWritten(b, h, canvas, timestamp);
            && fixed.buttons == written.buttons && fixed.closes == written.closes
            && |fixed.handed| == |written.handed|
            && (b.downloadRec || !b.downloadPhoto ==> fixed == written)
            && (!b.downloadRec && b.downloadPhoto ==>
                  && fixed.handed[0].name == written.handed[0].name
                  && fixed.handed[0].content.image.source == written.handed[0].content.image.source)
  {
  }

  // ---------------------------------------------------------------- the component

  /** Which handler's `getUserMedia` call the browser has yet to answer. */
  datatype Request = ForPhoto | ForRecording

  /**
   The component and the parts of the page it drives: whether the host shows the
   dialog, the button record, the hook, the photo canvas, the outstanding camera
   request, the blob bound to the playback player, and the files handed to the
   host and downloaded so far.
   */
  datatype Component = Component(
    open: bool,
    buttons: ButtonVisible,
    hook: Hook,
    canvas: Canvas,
    pending: Option<Request>,
    playback: Option<Blob>,
    handed: seq<NamedFile>,
    downloads: seq<NamedFile>)

  const InitialComponent: Component :=
    Component(false, InitButtonVisible, InitialHook, BlankCanvas, None, None, [], [])

  /**
   Everything that can happen to the component. Clicks carry what the browser
   decides at that moment: whether the camera API exists, the frame being shown,
   the clock's text.
   */
  datatype Event =
    | HostOpens
    | CloseClicked
    | OpenWebCamClicked(capable: bool)
    | TakePhotoClicked(frame: Frame)
    | StartRecClicked(capable: bool)
    | StopRecClicked
    | DownloadRecClicked(timestamp: string)
    | DownloadPhotoClicked(timestamp: string)
    | SaveClicked(timestamp: string)
    | AccessGranted(stream: MediaStream, recorderCreated: bool)
    | AccessDenied
    | ChunkDelivered(data: Bytes)

  /** The dialog control an event is a click on, if it is one. */
  function ClickOf(e: Event): Option<Click>
  {
    match e
    case CloseClicked => Some(CloseClick)
    case OpenWebCamClicked(_) => Some(OpenWebCamClick)
    case TakePhotoClicked(_) => Some(TakePhotoClick)
    case StartRecClicked(_) => Some(StartRecClick)
    case StopRecClicked => Some(StopRecClick)
    case DownloadRecClicked(_) => Some(DownloadRecClick)
    case DownloadPhotoClicked(_) => Some(DownloadPhotoClick)
    case SaveClicked(_) => Some(SaveClick)
    case _ => None
  }

  /** Close and Save sit in the title bar; the other controls are hidden while loading or in error. */
  predicate InTitleBar(k: Click)
  {
    k == CloseClick || k == SaveClick
  }

  /**
   Whether the event can happen in this state. A click needs its control on
   screen: Close whenever the dialog is open, Save when it is visible, an action
   button when it is shown and its container is not hidden by loading or error
   (so exactly when `Render` lists it). The browser answers only an outstanding
   camera request and delivers chunks only to a recorder that exists.
   */
  function Allowed(c: Component, e: Event): (allowed: bool)
    ensures e.HostOpens? ==> (allowed <==> !c.open)
    ensures e.CloseClicked? ==> (allowed <==> c.open)
    ensures e.SaveClicked? ==> (allowed <==> c.open && SaveVisible(c.buttons))
    ensures ClickOf(e).Some? && ButtonOf(ClickOf(e).value).Some? ==>
              (allowed <==> && c.open && !c.hook.isLoading && !c.hook.isError
                            && ButtonOf(ClickOf(e).value).value in ShownButtons(c.buttons))
    ensures e.AccessGranted? || e.AccessDenied? ==> (allowed <==> c.pending.Some?)
    ensures e.ChunkDelivered? ==> (allowed <==> c.hook.recorder.Some?)
  {
    match e
    case HostOpens => !c.open
    case AccessGranted(_, _) => c.pending.Some?
    case AccessDenied => c.pending.Some?
    case ChunkDelivered(_) => c.hook.recorder.Some?
    case _ =>
      && c.open
      && Enabled(c.buttons, ClickOf(e).value)
      && (InTitleBar(ClickOf(e).value) || (!c.hook.isLoading && !c.hook.isError))
  }

  /** The component after the event: each click runs its handler, each answer its callback. */
  function Step(c: Component, e: Event): (r: Component)
    requires Allowed(c, e)
    ensures c.hook.isError ==> r.hook.isError
    ensures c.handed <= r.handed
    ensures |r.handed| <= |c.handed| + 1
    ensures |r.handed| > |c.handed| ==> e.SaveClicked?
    ensures c.downloads <= r.downloads
  {
    match e
    case HostOpens => c.(open := true)
    case CloseClicked => c.(buttons := OnClose(c.buttons), open := false)
    case OpenWebCamClicked(capable) =>
      c.(buttons := OnOpenWebCam(c.buttons), hook := OpenWebCam(c.hook, capable),
         pending := if capable then Some(ForPhoto) else c.pending)
    case TakePhotoClicked(frame) =>
      c.(buttons := OnTakePhoto(c.buttons), canvas := TakePhoto(frame, c.canvas))
    case StartRecClicked(capable) =>
      c.(buttons := OnStartRec(c.buttons), hook := StartVideoRec(c.hook, capable),
         pending := if capable then Some(ForRecording) else c.pending)
    case StopRecClicked =>
      var stopped := StopVideoRec(c.hook);
      c.(buttons := OnStopRec(c.buttons), hook := stopped.hook,
         playback := if stopped.playback.Some? then stopped.playback else c.playback)
    case DownloadRecClicked(timestamp) =>
      c.(downloads := c.downloads + [DownloadVideoRec(c.hook, timestamp)])
    case DownloadPhotoClicked(timestamp) =>
      c.(downloads := c.downloads + [DownloadPhoto(c.canvas, timestamp)])
    case SaveClicked(timestamp) =>
      var saved := HandleSaveAsWritten(c.buttons, c.hook, c.canvas, timestamp);
      c.(buttons := saved.buttons, handed := c.handed + saved.handed, open := !saved.closes)
    case AccessGranted(stream, recorderCreated) =>
      var answered := if c.pending == Some(ForPhoto) then OpenWebCamSucceeded(c.hook)
                      else StartVideoRecSucceeded(c.hook, stream, recorderCreated);
      c.(hook := answered, pending := None)
    case AccessDenied =>
      c.(hook := AcquisitionFailed(c.hook), pending := None)
    case ChunkDelivered(data) =>
      c.(hook := RecorderOnDataAvailable(c.hook, data))
  }

  /** Replays events; None as soon as one of them cannot happen. */
  function Run(c: Component, events: seq<Event>): Option<Component>
    decreases |events|
  {
    if |events| == 0 then Some(c)
    else if Allowed(c, events[0]) then Run(Step(c, events[0]), events[1..])
    else None
  }

  ghost predicate Reachable(c: Component)
  {
    exists events :: Run(InitialComponent, events) == Some(c)
  }

  /** The invariant of every state the component can reach. */
  predicate Valid(c: Component)
  {
    && PhaseOf(c.buttons).Some?
    && (c.pending.Some? ==> c.hook.isLoading)
    && (c.pending == Some(ForPhoto) ==> !c.buttons.stopRec)
    && RecorderHasStream(c.hook)
    && (forall i :: 0 <= i < |c.hook.recordedChunks| ==> |c.hook.recordedChunks[i]| > 0)
    && (c.buttons.stopRec && !c.hook.isLoading && !c.hook.isError ==>
          c.hook.recorder.Some? && c.hook.recorder.value.recording)
    && (c.buttons.downloadRec ==> c.playback.Some?)
    && (c.buttons.downloadPhoto ==>
          c.canvas.width == PhotoWidth && c.canvas.height == PhotoHeight && c.canvas.picture.Some?)
  }

  /** A camera or recording click keeps the invariant: its handler moves the record along the phase table. */
  lemma CaptureClickPreservesValid(c: Component, e: Event)
    requires Valid(c) && Allowed(c, e)
    requires e.OpenWebCamClicked? || e.TakePhotoClicked? || e.StartRecClicked? || e.StopRecClicked?
    ensures Valid(Step(c, e))
  {
  }

  /** Close, Save and the downloads keep the invariant: they reset the record or leave it alone. */
  lemma ExportClickPreservesValid(c: Component, e: Event)
    requires Valid(c) && Allowed(c, e)
    requires e.CloseClicked? || e.DownloadRecClicked? || e.DownloadPhotoClicked? || e.SaveClicked?
    ensures Valid(Step(c, e))
  {
  }

  /** The browser's answers and deliveries keep the invariant; the record does not move. */
  lemma AnswerPreservesValid(c: Component, e: Event)
    requires Valid(c) && Allowed(c, e) && ClickOf(e).None?
    ensures Valid(Step(c, e))
  {
    var r := Step(c, e);
    if e.ChunkDelivered? && |e.data| > 0 {
      assert r.hook.recordedChunks == c.hook.recordedChunks + [e.data];
    }
  }

  lemma StepPreservesValid(c: Component, e: Event)
    requires Valid(c) && Allowed(c, e)
    ensures Valid(Step(c, e))
  {
    if e.OpenWebCamClicked? || e.TakePhotoClicked? || e.StartRecClicked? || e.StopRecClicked? {
      CaptureClickPreservesValid(c, e);
    } else if ClickOf(e).Some? {
      ExportClickPreservesValid(c, e);
    } else {
      AnswerPreservesValid(c, e);
    }
  }

  lemma {:induction false} RunPreservesValid(c: Component, events: seq<Event>)
    requires Valid(c)
    ensures Run(c, events).Some? ==> Valid(Run(c, events).value)
    decreases |events|
  {
    if |events| > 0 && Allowed(c, events[0]) {
      StepPreservesValid(c, events[0]);
      RunPreservesValid(Step(c, events[0]), events[1..]);
    }
  }

  /**
   Every reachable state is Valid; in particular its button record is a
   reachable record of the flag machine, so it shows no two download buttons
   and "stop" only alone.
   */
  lemma ReachableIsValid(c: Component)
    requires Reachable(c)
    ensures Valid(c)
    ensures Buttons.Reachable(c.buttons)
    ensures !(c.buttons.downloadRec && c.buttons.downloadPhoto)
    ensures c.buttons.stopRec ==> ShownButtons(c.buttons) == {StopRecButton}
  {
    var events :| Run(InitialComponent, events) == Some(c);
    RunPreservesValid(InitialComponent, events);
    ReachableIffPhase(c.buttons);
    ReachableInvariants(c.buttons);
  }

  /** No event ever clears the hook's error flag. */
  lemma {:induction false} ErrorIsPermanent(c: Component, events: seq<Event>)
    requires c.hook.isError
    ensures Run(c, events).Some? ==> Run(c, events).value.hook.isError
    decreases |events|
  {
    if |events| > 0 && Allowed(c, events[0]) {
      ErrorIsPermanent(Step(c, events[0]), events[1..]);
    }
  }

  /** Once the hook is in error, only Close and Save can still be clicked. */
  lemma ErrorLeavesOnlyTitleBar(c: Component, e: Event)
    requires c.hook.isError && Allowed(c, e) && ClickOf(e).Some?
    ensures InTitleBar(ClickOf(e).value)
  {
  }

  /** Reaching "stop" with the hook idle means a live recorder and stream exist, so stopping exports. */
  lemma StopAlwaysExports(c: Component)
    requires Valid(c) && Allowed(c, StopRecClicked)
    ensures c.hook.recorder.Some? && c.hook.stream.Some?
    ensures Step(c, StopRecClicked).playback == Some(GetVideoByBlob(c.hook))
    ensures Step(c, StopRecClicked).buttons == Flags(RecordingStopped)
  {
  }

  /** Closing leaves a running recording running: `handleOnClose` does not touch the hook. */
  lemma CloseKeepsRecording(c: Component)
    requires Allowed(c, CloseClicked)
    ensures Step(c, CloseClicked).hook == c.hook
    ensures Step(c, CloseClicked).buttons == InitButtonVisible && !Step(c, CloseClicked).open
  {
  }

  /** Replaying an allowed event first is taking its step and replaying the rest. */
  lemma RunAllowedFirst(c: Component, e: Event, rest: seq<Event>)
    requires Allowed(c, e)
    ensures Run(c, [e] + rest) == Run(Step(c, e), rest)
  {
    assert ([e] + rest)[1..] == rest;
  }

  /** `n` bytes of zero. */
  function Zeros(n: nat): (data: Bytes)
    ensures |data| == n
  {
    seq(n, _ => 0 as bv8)
  }

  /** Replaying two event lists one after the other is replaying their concatenation. */
  lemma {:induction false} RunConcat(c: Component, a: seq<Event>, b: seq<Event>)
    ensures Run(c, a + b) == if Run(c, a).Some? then Run(Run(c, a).value, b) else None
    decreases |a|
  {
    if |a| == 0 {
      assert a + b == b;
    } else {
      assert (a + b)[0] == a[0];
      assert (a + b)[1..] == a[1..] + b;
      if Allowed(c, a[0]) {
        RunConcat(Step(c, a[0]), a[1..], b);
      }
    }
  }

  /** The deliveries as chunk events. */
  function Deliveries(data: seq<Bytes>): (events: seq<Event>)
    ensures |events| == |data|
    ensures forall i :: 0 <= i < |data| ==> events[i] == ChunkDelivered(data[i])
  {
    seq(|data|, i requires 0 <= i < |data| => ChunkDelivered(data[i]))
  }

  /** While a recorder exists, chunk events act on the hook exactly as the recorder's deliveries. */
  lemma {:induction false} ChunksFeedTheHook(c: Component, data: seq<Bytes>)
    requires c.hook.recorder.Some?
    ensures Run(c, Deliveries(data)) == Some(c.(hook := DeliverAll(c.hook, data)))
    decreases |data|
  {
    if |data| > 0 {
      var c' := Step(c, ChunkDelivered(data[0]));
      assert Deliveries(data)[1..] == Deliveries(data[1..]);
      ChunksFeedTheHook(c', data[1..]);
    }
  }

  /** The state right after a recording has started with the camera granted. */
  function RecordingStarted(s: MediaStream): Component
  {
    Component(true, Flags(Recording), Hook(Some(s), Some(Recorder(s.id, VideoMimeType, true)), [], false, false),
              BlankCanvas, None, None, [], [])
  }

  lemma StartRecording(s: MediaStream)
    ensures Run(InitialComponent, [HostOpens, StartRecClicked(true), AccessGranted(s, true)])
         == Some(RecordingStarted(s))
  {
    var c1 := Step(InitialComponent, HostOpens);
    var c2 := Step(c1, StartRecClicked(true));
    RunAllowedFirst(c2, AccessGranted(s, true), []);
    RunAllowedFirst(c1, StartRecClicked(true), [AccessGranted(s, true)]);
    RunAllowedFirst(InitialComponent, HostOpens, [StartRecClicked(true), AccessGranted(s, true)]);
  }

  /** Stopping a live recording and saving hands the host the buffer as one untyped ".webm" file. */
  lemma StopAndSave(c: Component, timestamp: string)
    requires c.open && c.buttons == Flags(Recording) && !c.hook.isLoading && !c.hook.isError
    requires c.hook.recorder.Some? && c.hook.stream.Some?
    ensures var run := Run(c, [StopRecClicked, SaveClicked(timestamp)]);
            && run.Some?
            && run.value.handed == c.handed + [NamedFile(FileName(timestamp, VideoExtension), "", VideoData(GetVideoByBlob(c.hook)))]
            && !run.value.open
  {
    var c1 := Step(c, StopRecClicked);
    RunAllowedFirst(c1, SaveClicked(timestamp), []);
    RunAllowedFirst(c, StopRecClicked, [SaveClicked(timestamp)]);
  }

  /** The three chunks of the recording scenario. */
  const SampleChunks: seq<Bytes> := [Zeros(10), Zeros(20), Zeros(30)]

  lemma SampleChunksSize()
    ensures TotalSize(SampleChunks) == 60
  {
    TotalSizeAppend([Zeros(10)], [Zeros(20), Zeros(30)]);
    TotalSizeAppend([Zeros(20)], [Zeros(30)]);
    assert SampleChunks == [Zeros(10)] + ([Zeros(20)] + [Zeros(30)]);
  }

  lemma SampleDeliveries()
    ensures Deliveries(SampleChunks) == [ChunkDelivered(Zeros(10)), ChunkDelivered(Zeros(20)), ChunkDelivered(Zeros(30))]
  {
  }

  /** Start a recording and receive the sample chunks: they are all in the buffer. */
  lemma RecordSampleChunks(s: MediaStream)
    ensures var run := Run(InitialComponent, [HostOpens, StartRecClicked(true), AccessGranted(s, true)] + Deliveries(SampleChunks));
            && run.Some?
            && run.value.open && run.value.buttons == Flags(Recording) && run.value.handed == []
            && !run.value.hook.isLoading && !run.value.hook.isError
            && run.value.hook.recorder.Some? && run.value.hook.stream.Some?
            && Concat(run.value.hook.recordedChunks) == Concat(SampleChunks)
  {
    var start := [HostOpens, StartRecClicked(true), AccessGranted(s, true)];
    StartRecording(s);
    var c3 := RecordingStarted(s);
    ChunksFeedTheHook(c3, SampleChunks);
    RunConcat(InitialComponent, start, Deliveries(SampleChunks));
    RecordingHoldsDeliveries(c3.hook, SampleChunks);
  }

  /**
   Start a recording, receive chunks of 10, 20 and 30 bytes, stop and save: the
   host receives exactly one untyped ".webm" file wrapping 60 bytes of webm
   video, and the dialog closes.
   */
  lemma RecordAndSave(s: MediaStream, timestamp: string)
    ensures var run := Run(InitialComponent, [
              HostOpens, StartRecClicked(true), AccessGranted(s, true),
              ChunkDelivered(Zeros(10)), ChunkDelivered(Zeros(20)), ChunkDelivered(Zeros(30)),
              StopRecClicked, SaveClicked(timestamp)]);
            && run.Some?
            && |run.value.handed| == 1
            && run.value.handed[0].name == FileName(timestamp, VideoExtension)
            && run.value.handed[0].fileType == ""
            && run.value.handed[0].content.VideoData?
            && |run.value.handed[0].content.video.data| == 60
            && run.value.handed[0].content.video.mimeType == "video/webm"
            && !run.value.open
  {
    var start := [HostOpens, StartRecClicked(true), AccessGranted(s, true)] + Deliveries(SampleChunks);
    var finish := [StopRecClicked, SaveClicked(timestamp)];
    SampleDeliveries();
    assert start + finish == [
              HostOpens, StartRecClicked(true), AccessGranted(s, true),
              ChunkDelivered(Zeros(10)), ChunkDelivered(Zeros(20)), ChunkDelivered(Zeros(30)),
              StopRecClicked, SaveClicked(timestamp)];
    RecordSampleChunks(s);
    var recorded := Run(InitialComponent, start).value;
    StopAndSave(recorded, timestamp);
    RunConcat(InitialComponent, start, finish);
    var video := GetVideoByBlob(recorded.hook);
    assert video.data == Concat(SampleChunks);
    SampleChunksSize();
  }

  /** The state right after a photo has been taken with the camera granted. */
  function PhotoTaken(frame: Frame): Component
  {
    Component(true, Flags(PhotoCaptured), InitialHook, TakePhoto(frame, BlankCanvas), None, None, [], [])
  }

  lemma TakeAPhoto(s: MediaStream, frame: Frame)
    ensures Run(InitialComponent, [HostOpens, OpenWebCamClicked(true), AccessGranted(s, false), TakePhotoClicked(frame)])
         == Some(PhotoTaken(frame))
  {
    var e := [HostOpens, OpenWebCamClicked(true), AccessGranted(s, false), TakePhotoClicked(frame)];
    var c0 := InitialComponent;
    var c1 := c0.(open := true);
    assert Step(c0, e[0]) == c1;
    var c2 := c1.(buttons := Flags(CameraOpen), hook := InitialHook.(isLoading := true), pending := Some(ForPhoto));
    assert Step(c1, e[1]) == c2;
    var c3 := c2.(hook := InitialHook, pending := None);
    assert Step(c2, e[2]) == c3;
    assert Step(c3, e[3]) == PhotoTaken(frame);
    RunAllowedFirst(c3, e[3], []);
    RunAllowedFirst(c2, e[2], e[3..]);
    RunAllowedFirst(c1, e[1], e[2..]);
    RunAllowedFirst(c0, e[0], e[1..]);
    assert e == [e[0]] + e[1..];
  }

  /**
   Open the camera, take a photo and save: the host receives exactly one ".png"
   file, untyped, holding a JPEG encoded from a 1480x1080 canvas with the frame.
   */
  lemma PhotoAndSave(s: MediaStream, frame: Frame, timestamp: string)
    ensures var run := Run(InitialComponent, [
              HostOpens, OpenWebCamClicked(true), AccessGranted(s, false),
              TakePhotoClicked(frame), SaveClicked(timestamp)]);
            && run.Some?
            && run.value.handed == [NamedFile(FileName(timestamp, PhotoExtension), "",
                 ImageData(ImageBlob(Canvas(1480, 1080, Some(frame)), "image/jpeg", 1.0)))]
            && !run.value.open
  {
    var start := [HostOpens, OpenWebCamClicked(true), AccessGranted(s, false), TakePhotoClicked(frame)];
    TakeAPhoto(s, frame);
    RunConcat(InitialComponent, start, [SaveClicked(timestamp)]);
    RunAllowedFirst(PhotoTaken(frame), SaveClicked(timestamp), []);
    assert start + [SaveClicked(timestamp)] == [
              HostOpens, OpenWebCamClicked(true), AccessGranted(s, false),
              TakePhotoClicked(frame), SaveClicked(timestamp)];
  }

  /**
   The corrected Save, applied to the state the same photo run reaches, hands
   PNG data under the ".png" name.
   */
  lemma PhotoAndCorrectedSave(s: MediaStream, frame: Frame, timestamp: string)
    ensures var run := Run(InitialComponent, [HostOpens, OpenWebCamClicked(true), AccessGranted(s, false), TakePhotoClicked(frame)]);
            && run.Some?
            && var saved := HandleSave(run.value.buttons, run.value.hook, run.value.canvas, timestamp);
            && saved.handed == [NamedFile(FileName(timestamp, PhotoExtension), "",
                 ImageData(ImageBlob(Canvas(1480, 1080, Some(frame)), "image/png", 1.0)))]
            && NameMatchesType(saved.handed[0])
  {
    TakeAPhoto(s, frame);
  }

  /**
   Without the camera API, opening the camera ends in the error state with the
   spinner cleared, and nothing but the title bar stays usable.
   */
  lemma NoCameraApi()
    ensures var run := Run(InitialComponent, [HostOpens, OpenWebCamClicked(false)]);
            && run.Some?
            && run.value.hook.isError && !run.value.hook.isLoading
            && run.value.hook.stream.None? && run.value.hook.recorder.None?
            && Render(run.value.buttons, run.value.hook.isLoading, run.value.hook.isError).actionButtons == {}
  {
    var c1 := Step(InitialComponent, HostOpens);
    var c2 := Step(c1, OpenWebCamClicked(false));
    RunAllowedFirst(c1, OpenWebCamClicked(false), []);
    RunAllowedFirst(InitialComponent, HostOpens, [OpenWebCamClicked(false)]);
  }
}
