# Camera capture dialog — a Dafny model

This project models the capture workflow of a React page. A user opens a
full-screen dialog and either takes a photo from the device camera or records
a short webm video. They then save the capture as a `File` handed to the
surrounding form, or download it.

Two pieces of the program are modelled:

- **The dialog** (`PersonalPhoto`). It holds a record of six booleans that
  says which action button is rendered: `openWebCam`, `takePhoto`, `startRec`,
  `stopRec`, `downloadRec` and `downloadPhoto`. Five click handlers replace the
  record with fixed values. `handleSave` decides what to hand to the host from
  the record. The JSX derives from the record which buttons, which player and
  whether the canvas are visible.
- **The `useWebRTC` hook**. It holds the stream, the recorder, the ordered list
  of recorded chunks and the `isLoading` / `isError` flags. It also fixes the
  photo parameters.

The Dafny modules follow that split:

- `Media` (`media.dfy`): byte chunks, blobs as the in-order concatenation of
  chunks, canvases, image blobs, named files and the constants of the program.
- `Buttons` (`buttons.dfy`): the six-flag record and the handlers' updates.
  It maps the record onto five workflow phases: Idle, CameraOpen, Recording,
  RecordingStopped and PhotoCaptured. It also states reachability over click
  sequences.
- `WebRtcHook` (`webrtc_hook.dfy`): the hook's state and operations. Each
  camera request is split into its synchronous part and the success and
  failure callbacks the browser later runs.
- `PersonalPhoto` (`personal_photo.dfy`): rendering, `handleSave`, and the
  whole component as a machine driven by events. Events are clicks on rendered
  controls, the browser's answer to an outstanding camera request, and chunks
  delivered to an existing recorder. The module proves the machine's
  reachable-state invariant and three end-to-end scenarios. The machine runs
  Save as the code has it (`HandleSaveAsWritten`). The corrected Save of the
  Findings section is proved on its own and applied to the photo scenario.

The browser is reduced to what the program observes of it:

- whether the camera API exists at all (`capable`);
- whether the camera request is granted or refused;
- whether a `MediaRecorder` could be built;
- the frame drawn into the canvas;
- the timestamp text used in file names.

Three behaviours of the code that one might not expect:

- Reachable records render two or three action buttons at once, not exactly
  one (`Buttons.SeveralButtonsShown`).
- Without the camera API the hook does clear its loading flag
  (`PersonalPhoto.NoCameraApi`).
- Closing the dialog leaves a running recording and stream untouched
  (`PersonalPhoto.CloseKeepsRecording`).

## Model

| member | source | states |
|---|---|---|
| `Media.Concat` | src/hooks/webRTC.hook.js:129 | The bytes of a blob built from chunks number exactly the sum of the chunk sizes. |
| `Media.ConcatAppend` | src/hooks/webRTC.hook.js:129 | Building a blob from two chunk lists joined is joining their blobs' bytes, so earlier chunks keep their place. |
| `Media.ConcatChunkAt` | src/hooks/webRTC.hook.js:129 | Chunk i lies in the blob's bytes right after the bytes of chunks 0..i-1. |
| `Media.ChunksToBlob` | src/hooks/webRTC.hook.js:129 | `new Blob(chunks, {type})` has the given type, the total chunk size, and every chunk in order at its offset. |
| `Media.FileName` | src/hooks/webRTC.hook.js:144 | Every file name is "WebRTC_", then the opaque timestamp, then the extension. |
| `Buttons.ShownButtons` | src/components/PersonalPhoto/PersonalPhoto.js:125-185 | An action button is rendered exactly when its own flag is true. |
| `Buttons.OnClose` | src/components/PersonalPhoto/PersonalPhoto.js:35-38 | After closing, exactly "open camera" and "start recording" are shown and Save is hidden, whatever was shown before. |
| `Buttons.CloseIgnoresPriorState` | src/components/PersonalPhoto/PersonalPhoto.js:17-19 | Closing gives the initial record from any record, and closing twice equals closing once. |
| `Buttons.OnOpenWebCam` | src/components/PersonalPhoto/PersonalPhoto.js:40-45 | Opening the camera is possible only when its button is shown; afterwards only "take photo" is shown. |
| `Buttons.OnTakePhoto` | src/components/PersonalPhoto/PersonalPhoto.js:47-52 | After taking a photo, exactly "open camera", "start recording" and "download photo" are shown, and Save is visible. |
| `Buttons.OnStartRec` | src/components/PersonalPhoto/PersonalPhoto.js:54-59 | After starting a recording only "stop" is shown. |
| `Buttons.OnStopRec` | src/components/PersonalPhoto/PersonalPhoto.js:61-66 | After stopping, exactly "open camera", "start recording" and "download video" are shown, and Save is visible. |
| `Buttons.Enabled` | src/components/PersonalPhoto/PersonalPhoto.js:105-185 | Close can always be clicked; Save exactly when it is visible; an action button exactly when it is among the shown buttons. |
| `Buttons.Next` | src/components/PersonalPhoto/PersonalPhoto.js:35-99 | The downloads leave the record alone; Close and Save give the initial record; from a phase record every click leads to a phase record. |
| `Buttons.PhaseOf` | src/components/PersonalPhoto/PersonalPhoto.js:17-66 | Reading a record as a workflow phase inverts the phase-to-record map, and fails only on records no phase uses. |
| `Buttons.PhaseOfFlags` | src/components/PersonalPhoto/PersonalPhoto.js:17-66 | The five phases use five distinct records. |
| `Buttons.NextMatchesPhaseTable` | src/components/PersonalPhoto/PersonalPhoto.js:35-99 | From every phase, a click is possible on the flags exactly when the phase table allows it, and it leads to the record of the table's next phase. |
| `Buttons.RunFollowsPhases` | src/components/PersonalPhoto/PersonalPhoto.js:35-99 | Replaying any click sequence on the flags gives the same result as replaying it on the phases. |
| `Buttons.ClicksTo` | src/components/PersonalPhoto/PersonalPhoto.js:17-66 | Every phase's record can be reached from the initial record by clicks on shown buttons. |
| `Buttons.ReachableIffPhase` | src/components/PersonalPhoto/PersonalPhoto.js:17-66 | A record is reachable from the initial one exactly when it is one of the five phase records. |
| `Buttons.ReachableInvariants` | src/components/PersonalPhoto/PersonalPhoto.js:17-66 | In reachable records the two download flags are never both set, "stop" is shown only alone, "take photo" is shown only alone, and "open camera" is shown exactly when "start recording" is. |
| `Buttons.SeveralButtonsShown` | src/components/PersonalPhoto/PersonalPhoto.js:47-52 | The initial record shows two action buttons and the reachable after-photo record shows three. |
| `WebRtcHook.RecorderOnDataAvailable` | src/hooks/webRTC.hook.js:57-60 | An empty chunk leaves the hook unchanged; any other chunk is appended at the end, and nothing else changes. |
| `WebRtcHook.NonEmpty` | src/hooks/webRTC.hook.js:58 | Dropping empty deliveries never adds chunks, leaves only non-empty chunks, and keeps the concatenated bytes and the total size of the deliveries. |
| `WebRtcHook.NonEmptyKeepsExactlyNonEmpty` | src/hooks/webRTC.hook.js:58 | A chunk is kept exactly when it was delivered and is not empty. |
| `WebRtcHook.NonEmptyAppend` | src/hooks/webRTC.hook.js:57-60 | Filtering deliveries made in two runs joins the two filtered runs, so kept chunks stay in delivery order. |
| `WebRtcHook.DeliverAllAppends` | src/hooks/webRTC.hook.js:57-60 | After any sequence of deliveries, the buffer is the old buffer followed by the non-empty deliveries in delivery order. |
| `WebRtcHook.RecordingHoldsDeliveries` | src/hooks/webRTC.hook.js:156-159 | After a cleared buffer, the exported video holds exactly the delivered bytes in order, and its size is the sum of the delivered sizes. |
| `WebRtcHook.StartVideoRec` | src/hooks/webRTC.hook.js:66-82 | Without the camera API: not loading, in error, buffer untouched. With it: loading and the buffer empty before any chunk arrives. Stream and recorder are unchanged either way. |
| `WebRtcHook.StartVideoRecSucceeded` | src/hooks/webRTC.hook.js:84-105 | On success the stream is kept. If the recorder is built, a recording webm recorder on that stream exists and loading ends. If it is not, loading stays on. |
| `WebRtcHook.OpenWebCam` | src/hooks/webRTC.hook.js:165-176 | Without the camera API: not loading and in error. With it: loading. No stream, recorder or chunk is created. |
| `WebRtcHook.OpenWebCamSucceeded` | src/hooks/webRTC.hook.js:178-189 | The success callback of "open camera" ends loading and leaves error, stream, recorder and buffer as they were. |
| `WebRtcHook.AcquisitionFailed` | src/hooks/webRTC.hook.js:106-112 | The failure callback ends loading and sets the error flag, creating nothing. |
| `WebRtcHook.AcquisitionEndsLoading` | src/hooks/webRTC.hook.js:84-112 | Every answer to a camera request ends loading, except a granted recording whose recorder cannot be built: that one throws before clearing the flag, so loading stays on. A refusal always leaves the hook in error. |
| `WebRtcHook.StopVideoRec` | src/hooks/webRTC.hook.js:120-132 | With no recorder it changes nothing and binds nothing. Otherwise it stops that same recorder and the same stream's first track. The bound blob is the in-order concatenation of the chunks buffered at the call, with type video/webm. Buffer and flags are unchanged. |
| `WebRtcHook.GetVideoByBlob` | src/hooks/webRTC.hook.js:156-159 | The exported video is the buffer's chunks in order, with their total size and type video/webm. |
| `WebRtcHook.DownloadVideoRec` | src/hooks/webRTC.hook.js:137-151 | The downloaded video is named "WebRTC_<timestamp>.webm" and holds the buffer's bytes with type video/webm. The downloaded file reports its content's type. |
| `WebRtcHook.VideoExportsAgree` | src/hooks/webRTC.hook.js:120-159 | For one hook state, the played-back, downloaded and exported videos are the same blob. |
| `WebRtcHook.TakePhoto` | src/hooks/webRTC.hook.js:213-218 | Taking a photo always leaves a 1480x1080 canvas that holds the frame. |
| `WebRtcHook.TakePhotoForgetsCanvas` | src/hooks/webRTC.hook.js:213-218 | The canvas after a photo depends only on the frame, not on the canvas's earlier size or content. |
| `WebRtcHook.GetPhotoByBlob` | src/hooks/webRTC.hook.js:205-207 | The image blob encodes the given canvas with the requested type and quality. |
| `WebRtcHook.PhotoBlobDefaults` | src/hooks/webRTC.hook.js:205 | Without arguments, the canvas is encoded as image/jpeg at quality 1. |
| `WebRtcHook.DownloadPhoto` | src/hooks/webRTC.hook.js:224-238 | The downloaded photo is named "WebRTC_<timestamp>.png" and is a PNG encoding of the canvas. The downloaded file reports its content's type. |
| `PersonalPhoto.Render` | src/components/PersonalPhoto/PersonalPhoto.js:111-217 | Save is visible exactly when a download flag is set. While loading or in error, no action button, player or canvas shows. Otherwise the live player shows exactly when "stop" or "take photo" does, the playback player exactly when "download video" does, and the canvas exactly when "download photo" does. |
| `PersonalPhoto.ReachableViewMatchesPhase` | src/components/PersonalPhoto/PersonalPhoto.js:190-217 | In every reachable record at most one medium shows. Save shows exactly in the two captured phases. The medium shown is the one the phase is about. |
| `PersonalPhoto.HandleSaveAsWritten` | src/components/PersonalPhoto/PersonalPhoto.js:76-99 | Save as the code has it. Every branch resets the record and closes, and one file is handed exactly when a download flag is set. Each handed file has an empty type of its own. With "download video" shown it is a ".webm" file of the buffer's bytes in order, as video/webm. Otherwise, with "download photo" shown, it is a ".png" file of the canvas encoded as image/jpeg at quality 1. |
| `PersonalPhoto.SavedPhotoIsJpegNamedPng` | src/components/PersonalPhoto/PersonalPhoto.js:87-93 | As written, the saved photo is image/jpeg data under a ".png" name. |
| `PersonalPhoto.HandleSave` | src/components/PersonalPhoto/PersonalPhoto.js:76-99 | With "download video" shown, exactly one .webm file of the exported video is handed. Otherwise, with "download photo" shown, exactly one .png file of the canvas is handed. Otherwise nothing is handed. Every branch resets the record and closes. Each handed file's extension matches its content type, and the file's own type is empty. |
| `PersonalPhoto.SaveDiffersOnlyInPhotoType` | src/components/PersonalPhoto/PersonalPhoto.js:87-93 | The corrected Save differs from the written one only in the photo's encoding: same files, names, sources, record and closing. |
| `PersonalPhoto.Allowed` | src/components/PersonalPhoto/PersonalPhoto.js:102-185 | The host opens only a closed dialog. Close is possible exactly while the dialog is open, and Save exactly when it is also visible. An action button is possible exactly when it is shown and neither loading nor error hides its container, which is when `Render` lists it. The browser answers exactly while a camera request is outstanding, and chunks arrive exactly while a recorder exists. |
| `PersonalPhoto.Step` | src/components/PersonalPhoto/PersonalPhoto.js:35-99 | Each event runs its handler or callback, and Save runs as written. No event clears the error flag. Only Save hands files to the host, and at most one per click. Handed files and downloads are never withdrawn. |
| `PersonalPhoto.CaptureClickPreservesValid` | src/components/PersonalPhoto/PersonalPhoto.js:40-66 | The camera, photo, start and stop clicks keep the component invariant. |
| `PersonalPhoto.ExportClickPreservesValid` | src/components/PersonalPhoto/PersonalPhoto.js:35-99 | Close, Save and both downloads keep the component invariant. |
| `PersonalPhoto.AnswerPreservesValid` | src/hooks/webRTC.hook.js:57-112 | The browser's answers to camera requests and its chunk deliveries keep the component invariant. |
| `PersonalPhoto.StepPreservesValid` | src/components/PersonalPhoto/PersonalPhoto.js:35-99 | Every allowed event keeps the component invariant (listed in the next row). |
| `PersonalPhoto.RunPreservesValid` | src/components/PersonalPhoto/PersonalPhoto.js:35-99 | Any sequence of allowed events keeps the component invariant. |
| `PersonalPhoto.ReachableIsValid` | src/components/PersonalPhoto/PersonalPhoto.js:17-217 | In every reachable state: the record is a phase record; a pending request means loading; a recorder has a stream; no buffered chunk is empty; "stop" on an idle, error-free hook means a live recorder; "download video" means a bound playback blob; "download photo" means a 1480x1080 photo. |
| `PersonalPhoto.ErrorIsPermanent` | src/hooks/webRTC.hook.js:24-196 | Once the hook is in error, it stays in error after any sequence of events. |
| `PersonalPhoto.ErrorLeavesOnlyTitleBar` | src/components/PersonalPhoto/PersonalPhoto.js:120-122 | While the hook is in error, the only clicks possible are Close and Save. |
| `PersonalPhoto.StopAlwaysExports` | src/components/PersonalPhoto/PersonalPhoto.js:61-66 | Whenever "stop" can be clicked in a valid state, a recorder and stream exist. Stopping then binds the exported video to the playback player and moves to the stopped phase. |
| `PersonalPhoto.CloseKeepsRecording` | src/components/PersonalPhoto/PersonalPhoto.js:35-38 | Closing resets the record and closes the dialog but leaves the hook, and so any running recording, as it was. |
| `PersonalPhoto.ChunksFeedTheHook` | src/hooks/webRTC.hook.js:103 | While a recorder exists, a series of chunk events acts on the component exactly as the hook's deliveries. |
| `PersonalPhoto.StartRecording` | src/components/PersonalPhoto/PersonalPhoto.js:54-59 | Opening the dialog, starting a recording and being granted the camera leads to the recording phase with a live recorder and an empty buffer. |
| `PersonalPhoto.StopAndSave` | src/components/PersonalPhoto/PersonalPhoto.js:76-86 | From a live recording, stop then Save hands the host exactly one untyped ".webm" file of the buffer and closes the dialog. |
| `PersonalPhoto.RecordSampleChunks` | src/hooks/webRTC.hook.js:57-105 | Starting a recording and receiving chunks of 10, 20 and 30 bytes leaves a live recording whose buffer holds those bytes in order, with nothing handed yet. |
| `PersonalPhoto.RecordAndSave` | src/components/PersonalPhoto/PersonalPhoto.js:81-86 | Recording chunks of 10, 20 and 30 bytes, stopping and saving hands the host exactly one "WebRTC_<timestamp>.webm" file and closes the dialog. The file's own type is empty, and it wraps 60 bytes of video/webm. |
| `PersonalPhoto.TakeAPhoto` | src/components/PersonalPhoto/PersonalPhoto.js:40-52 | Opening the dialog, opening the granted camera and taking a photo leads to the photo phase with a 1480x1080 canvas holding the frame and an idle hook. |
| `PersonalPhoto.PhotoAndSave` | src/components/PersonalPhoto/PersonalPhoto.js:87-93 | Opening the camera, taking a photo and saving hands the host exactly one untyped "WebRTC_<timestamp>.png" file, and closes the dialog. The file holds the 1480x1080 canvas encoded as image/jpeg at quality 1. |
| `PersonalPhoto.PhotoAndCorrectedSave` | src/components/PersonalPhoto/PersonalPhoto.js:87-93 | In the state the same photo run reaches, the corrected Save hands the canvas encoded as image/png, which matches the ".png" name. |
| `PersonalPhoto.NoCameraApi` | src/hooks/webRTC.hook.js:165-176 | Without the camera API, "open camera" ends in error with loading cleared. No stream or recorder exists, and no action button is rendered. |

## Left out

- The browser's camera API is replaced by abstract outcomes. The vendor-prefix probing of `getUserMedia` becomes a `capable` flag, and the request's answer becomes a success or failure event. The constraints object (resolution bounds, facing mode) is passed to that foreign call only and is not modelled.
- `MediaRecorder` internals are left out, including its 100 ms timeslice. Chunk events are allowed whenever a recorder exists, which covers the final chunk the recorder delivers after `stop()`.
- Assigning `srcObject`, `mozSrcObject` or `src` to players, and `play()` on metadata, are left out. The model keeps only the blob bound to the playback player.
- Canvas `drawImage` and `toBlob` are left out. Only the canvas size, the frame drawn and the requested MIME type and quality are kept.
- Object URLs and their delayed revocation, `alert`, and the DOM anchor used for downloads are left out. A download is the named file the browser is asked to save.
- React's batching of state updates is not modelled; each handler is one atomic step. The stale `recordedChunks` captured by `stopVideoRec` is not modelled either. `WebRtcHook.StopVideoRec` states its blob over the buffer as it stands at the call, and makes no claim that the recorder's last chunk is included.
- Timestamps from `toLocaleString()` are opaque strings. Only the "WebRTC_" prefix and the ".webm"/".png" suffix are stated.
- The asynchronous photo branch of Save is folded into one step.
- A download's own type is taken to be its blob's type, served through the object URL. The anchor element that triggers the download is not modelled.
- The host form, the app shell, the spinner and the style sheets are presentation or logging only and are not part of this model. The host's callback is represented by the list of handed files.
- `WebRtcHook.StopVideoRec`: a recorder without a stream cannot arise in the component (`PersonalPhoto.ReachableIsValid`). For that case the model takes the thrown error to leave the recorder stopped and bind nothing.
- `WebRtcHook.DownloadPhoto`: the call passes 1480 as the quality argument and a fourth argument 1080 that is ignored. The model records quality 1480, which PNG encoding ignores.
- The stream acquired by "open camera" is only attached to the player; the hook does not keep it, and the model does not track it.

## Findings

| source | as written | input that shows it | evidently intended | confidence | as-written member | corrected member |
|---|---|---|---|---|---|---|
| src/components/PersonalPhoto/PersonalPhoto.js:89-90 | The photo branch of Save encodes the canvas with getPhotoByBlob's default type, image/jpeg. It then names the file "WebRTC_<timestamp>.png". | Take a photo, then click Save: `downloadRec` is false and `downloadPhoto` is true. | Encode the canvas as image/png, as downloadPhoto does, so that the name matches the content. | medium; not executed | `PersonalPhoto.HandleSaveAsWritten`, shown by `PersonalPhoto.SavedPhotoIsJpegNamedPng` | `PersonalPhoto.HandleSave` |
