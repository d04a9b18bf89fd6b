/**
 The `useWebRTC` hook (webRTC.hook.js): the stream and recorder it holds, the
 list of recorded chunks, and its `isLoading` / `isError` flags.

 The browser's camera API is reduced to what the hook observes of it:
 - whether `getUserMedia` exists under any vendor prefix is the parameter `capable`;
 - `getUserMedia` answers later through one of two callbacks, modelled as separate
   functions (`...Succeeded`, `AcquisitionFailed`) that the caller applies when the
   browser answers;
 - a stream is an opaque identity plus whether its first track is still live;
 - a recorder is the stream it records, its MIME type, and whether it records.
 */
module WebRtcHook {
  import opened Media

  datatype MediaStream = MediaStream(id: nat, firstTrackLive: bool)

  datatype Recorder = Recorder(streamId: nat, mimeType: string, recording: bool)

  /** The hook's React state. */
  datatype Hook = Hook(
    stream: Option<MediaStream>,
    recorder: Option<Recorder>,
    recordedChunks: seq<Bytes>,
    isLoading: bool,
    isError: bool)

  const InitialHook: Hook := Hook(None, None, [], false, false)

  /** A stopped recording can always reach its stream's tracks. */
  predicate RecorderHasStream(h: Hook)
  {
    h.recorder.Some? ==> h.stream.Some?
  }

  // ---------------------------------------------------------------- recording buffer

  /** `recorderOnDataAvailable`: an empty chunk is dropped, any other one appended. */
  function RecorderOnDataAvailable(h: Hook, data: Bytes): (r: Hook)
    ensures |data| == 0 ==> r == h
    ensures |data| > 0 ==> r.recordedChunks == h.recordedChunks + [data]
    ensures r == h.(recordedChunks := r.recordedChunks)
  {
    if |data| == 0 then h
    else h.(recordedChunks := h.recordedChunks + [data])
  }

  /** The non-empty chunks of a delivery sequence, in delivery order. */
  function NonEmpty(deliveries: seq<Bytes>): (kept: seq<Bytes>)
    ensures |kept| <= |deliveries|
    ensures forall i :: 0 <= i < |kept| ==> |kept[i]| > 0
    ensures Concat(kept) == Concat(deliveries)
    ensures TotalSize(kept) == TotalSize(deliveries)
    decreases |deliveries|
  {
    if |deliveries| == 0 then []
    else
      var rest := NonEmpty(deliveries[1..]);
      if |deliveries[0]| == 0 then rest
      else
        assert ([deliveries[0]] + rest)[1..] == rest;
        [deliveries[0]] + rest
  }

  /** A delivery is kept exactly when it is not empty. */
  lemma {:induction false} NonEmptyKeepsExactlyNonEmpty(deliveries: seq<Bytes>)
    ensures forall d :: d in NonEmpty(deliveries) <==> d in deliveries && |d| > 0
    decreases |deliveries|
  {
    if |deliveries| > 0 {
      NonEmptyKeepsExactlyNonEmpty(deliveries[1..]);
      assert deliveries == [deliveries[0]] + deliveries[1..];
    }
  }

  /**
   Filtering works delivery by delivery: filtering a joined sequence joins the
   filtered parts, so the kept chunks stay in delivery order.
   */
  lemma {:induction false} NonEmptyAppend(a: seq<Bytes>, b: seq<Bytes>)
    ensures NonEmpty(a + b) == NonEmpty(a) + NonEmpty(b)
    decreases |a|
  {
    if |a| == 0 {
      assert a + b == b;
    } else {
      assert (a + b)[0] == a[0];
      assert (a + b)[1..] == a[1..] + b;
      NonEmptyAppend(a[1..], b);
      if |a[0]| > 0 {
        assert [a[0]] + (NonEmpty(a[1..]) + NonEmpty(b)) == ([a[0]] + NonEmpty(a[1..])) + NonEmpty(b);
      }
    }
  }

  /** The recorder delivering `deliveries` one after another. */
  function DeliverAll(h: Hook, deliveries: seq<Bytes>): Hook
    decreases |deliveries|
  {
    if |deliveries| == 0 then h
    else DeliverAll(RecorderOnDataAvailable(h, deliveries[0]), deliveries[1..])
  }

  /**
   After any deliveries the buffer is the old buffer followed by the non-empty
   deliveries in order, and nothing else in the hook has changed.
   */
  lemma {:induction false} DeliverAllAppends(h: Hook, deliveries: seq<Bytes>)
    ensures DeliverAll(h, deliveries).recordedChunks == h.recordedChunks + NonEmpty(deliveries)
    ensures DeliverAll(h, deliveries) == h.(recordedChunks := h.recordedChunks + NonEmpty(deliveries))
    decreases |deliveries|
  {
    if |deliveries| > 0 {
      var h' := RecorderOnDataAvailable(h, deliveries[0]);
      DeliverAllAppends(h', deliveries[1..]);
      if |deliveries[0]| > 0 {
        assert h'.recordedChunks + NonEmpty(deliveries[1..])
            == h.recordedChunks + ([deliveries[0]] + NonEmpty(deliveries[1..]));
      }
    }
  }

  /**
   The video assembled after a fresh start and any deliveries holds exactly the
   delivered bytes in order, so its size is the sum of the delivered sizes.
   */
  lemma {:induction false} RecordingHoldsDeliveries(h: Hook, deliveries: seq<Bytes>)
    requires h.recordedChunks == []
    ensures GetVideoByBlob(DeliverAll(h, deliveries)).data == Concat(deliveries)
    ensures |GetVideoByBlob(DeliverAll(h, deliveries)).data| == TotalSize(deliveries)
  {
    DeliverAllAppends(h, deliveries);
    assert DeliverAll(h, deliveries).recordedChunks == NonEmpty(deliveries);
  }

  // ---------------------------------------------------------------- acquisition

  /**
   `startVideoRec`, up to the call of `getUserMedia`. Without the camera API the
   hook reports an error and keeps its buffer (the check comes before the clear);
   with it, the hook is loading and the buffer is empty before any chunk arrives.
   */
  function StartVideoRec(h: Hook, capable: bool): (r: Hook)
    ensures !capable ==> !r.isLoading && r.isError
    ensures !capable ==> r.recordedChunks == h.recordedChunks
    ensures capable ==> r.isLoading && r.isError == h.isError && r.recordedChunks == []
    ensures r.stream == h.stream && r.recorder == h.recorder
  {
    if !capable then
      h.(isLoading := false, isError := true)
    else
      var chunks := if |h.recordedChunks| > 0 then [] else h.recordedChunks;
      h.(isLoading := true, recordedChunks := chunks)
  }

  /**
   The success callback of `startVideoRec`: keep the stream, make a webm recorder
   on it and start it. When the recorder cannot be built the callback throws after
   the stream is kept, so the recorder stays as it was and the hook stays loading.
   */
  function StartVideoRecSucceeded(h: Hook, s: MediaStream, recorderCreated: bool): (r: Hook)
    ensures r.stream == Some(s)
    ensures recorderCreated ==> !r.isLoading
    ensures recorderCreated ==> r.recorder == Some(Recorder(s.id, VideoMimeType, true))
    ensures !recorderCreated ==> r.recorder == h.recorder && r.isLoading == h.isLoading
    ensures r.recordedChunks == h.recordedChunks && r.isError == h.isError
  {
    var kept := h.(stream := Some(s));
    if recorderCreated then
      kept.(recorder := Some(Recorder(s.id, VideoMimeType, true)), isLoading := false)
    else
      kept
  }

  /** `openWebCam`, up to the call of `getUserMedia`. */
  function OpenWebCam(h: Hook, capable: bool): (r: Hook)
    ensures !capable ==> !r.isLoading && r.isError
    ensures capable ==> r.isLoading && r.isError == h.isError
    ensures r.stream == h.stream && r.recorder == h.recorder && r.recordedChunks == h.recordedChunks
  {
    if !capable then h.(isLoading := false, isError := true)
    else h.(isLoading := true)
  }

  /** The success callback of `openWebCam`: the stream goes to the player only. */
  function OpenWebCamSucceeded(h: Hook): (r: Hook)
    ensures !r.isLoading
    ensures r.isError == h.isError
    ensures r.stream == h.stream && r.recorder == h.recorder && r.recordedChunks == h.recordedChunks
  {
    h.(isLoading := false)
  }

  /** The failure callback, the same in `startVideoRec` and `openWebCam`. */
  function AcquisitionFailed(h: Hook): (r: Hook)
    ensures !r.isLoading && r.isError
    ensures r.stream == h.stream && r.recorder == h.recorder && r.recordedChunks == h.recordedChunks
  {
    h.(isLoading := false, isError := true)
  }

  /**
   The browser's answer ends the loading in every case but one: a granted
   recording whose MediaRecorder cannot be built throws before it clears the
   flag, so the spinner stays. A failure always leaves the error flag set.
   */
  lemma AcquisitionEndsLoading(h: Hook, s: MediaStream, capable: bool)
    ensures !OpenWebCamSucceeded(OpenWebCam(h, capable)).isLoading
    ensures !AcquisitionFailed(OpenWebCam(h, capable)).isLoading
    ensures !StartVideoRecSucceeded(StartVideoRec(h, capable), s, true).isLoading
    ensures StartVideoRecSucceeded(StartVideoRec(h, true), s, false).isLoading
    ensures !AcquisitionFailed(StartVideoRec(h, capable)).isLoading
    ensures AcquisitionFailed(StartVideoRec(h, capable)).isError
    ensures AcquisitionFailed(OpenWebCam(h, capable)).isError
  {
  }

  // ---------------------------------------------------------------- stop and export

  /** What `stopVideoRec` leaves: the hook, and the blob bound to the playback player if any. */
  datatype Stopped = Stopped(hook: Hook, playback: Option<Blob>)

  /**
   `stopVideoRec`: nothing without a recorder. Otherwise stop the recorder and
   the stream's first track, and bind a webm blob of the chunks buffered at the
   call. A chunk the recorder delivers on stopping arrives after this blob is made.
   Should a recorder exist without a stream, reaching for the stream's tracks
   throws right after the recorder is stopped, and nothing is bound.
   */
  function StopVideoRec(h: Hook): (r: Stopped)
    ensures h.recorder.None? ==> r.hook == h && r.playback.None?
    ensures h.recorder.Some? ==> r.hook.recorder == Some(h.recorder.value.(recording := false))
    ensures r.playback.Some? <==> h.recorder.Some? && h.stream.Some?
    ensures r.playback.Some? ==> r.playback.value.data == Concat(h.recordedChunks)
    ensures r.playback.Some? ==> r.playback.value.mimeType == VideoMimeType
    ensures r.playback.Some? ==> r.hook.stream.Some? && !r.hook.stream.value.firstTrackLive
    ensures r.hook.stream.None? <==> h.stream.None?
    ensures r.hook.stream.Some? ==> r.hook.stream.value.id == h.stream.value.id
    ensures r.hook.recordedChunks == h.recordedChunks
    ensures r.hook.isLoading == h.isLoading && r.hook.isError == h.isError
  {
    match h.recorder
    case None => Stopped(h, None)
    case Some(rec) =>
      var recorderStopped := h.(recorder := Some(rec.(recording := false)));
      match h.stream
      case None => Stopped(recorderStopped, None)
      case Some(s) =>
        Stopped(recorderStopped.(stream := Some(s.(firstTrackLive := false))),
                Some(ChunksToBlob(h.recordedChunks, VideoMimeType)))
  }

  /** `getVideoByBlob`: the buffered chunks as one webm blob. */
  function GetVideoByBlob(h: Hook): (b: Blob)
    ensures b.data == Concat(h.recordedChunks)
    ensures |b.data| == TotalSize(h.recordedChunks)
    ensures b.mimeType == VideoMimeType
  {
    ChunksToBlob(h.recordedChunks, VideoMimeType)
  }

  /** `downloadVideoRec`: the file the browser is asked to download. */
  function DownloadVideoRec(h: Hook, timestamp: string): (f: NamedFile)
    ensures f.name == FileName(timestamp, VideoExtension)
    ensures f.content.VideoData? && f.content.video.data == Concat(h.recordedChunks)
    ensures f.content.video.mimeType == VideoMimeType
    ensures f.fileType == ContentType(f.content)
  {
    NamedFile(FileName(timestamp, VideoExtension), VideoMimeType, VideoData(ChunksToBlob(h.recordedChunks, VideoMimeType)))
  }

  /** The played-back, downloaded and exported videos of one hook state are one blob. */
  lemma VideoExportsAgree(h: Hook, timestamp: string)
    requires RecorderHasStream(h) && h.recorder.Some?
    ensures StopVideoRec(h).playback == Some(GetVideoByBlob(h))
    ensures DownloadVideoRec(h, timestamp).content == VideoData(GetVideoByBlob(h))
  {
  }

  // ---------------------------------------------------------------- photo

  /** `takePhoto`: the canvas is resized to 1480x1080 and the frame drawn over all of it. */
  function TakePhoto(frame: Frame, canvas: Canvas): (c: Canvas)
    ensures c.width == PhotoWidth && c.height == PhotoHeight
    ensures c.picture == Some(frame)
  {
    Canvas(PhotoWidth, PhotoHeight, Some(frame))
  }

  /** The taken photo depends on the frame only, not on what the canvas held before. */
  lemma TakePhotoForgetsCanvas(frame: Frame, c1: Canvas, c2: Canvas)
    ensures TakePhoto(frame, c1) == TakePhoto(frame, c2)
  {
  }

  /** `getPhotoByBlob`: the canvas encoded with the given type and quality. */
  function GetPhotoByBlob(canvas: Canvas, mimeType: string := DefaultPhotoMimeType,
                          quality: real := DefaultPhotoQuality): (i: ImageBlob)
    ensures i.source == canvas && i.mimeType == mimeType && i.quality == quality
  {
    ImageBlob(canvas, mimeType, quality)
  }

  /** Without arguments, getPhotoByBlob encodes a JPEG at full quality. */
  lemma PhotoBlobDefaults(canvas: Canvas)
    ensures GetPhotoByBlob(canvas).mimeType == "image/jpeg"
    ensures GetPhotoByBlob(canvas).quality == 1.0
  {
  }

  /**
   `downloadPhoto`: a PNG of the canvas. The call passes 1480 where the quality
   goes (and a fourth argument that is dropped); PNG encoding ignores quality.
   */
  function DownloadPhoto(canvas: Canvas, timestamp: string): (f: NamedFile)
    ensures f.name == FileName(timestamp, PhotoExtension)
    ensures f.content.ImageData? && f.content.image.source == canvas
    ensures f.content.image.mimeType == "image/png"
    ensures f.fileType == ContentType(f.content)
  {
    NamedFile(FileName(timestamp, PhotoExtension), PngMimeType, ImageData(GetPhotoByBlob(canvas, PngMimeType, 1480.0)))
  }
}
