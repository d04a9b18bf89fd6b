/**
 Values that pass between the capture hook, the capture dialog and the host form:
 recorded chunks and the blob assembled from them, the photo canvas and the image
 blob encoded from it, and the named files handed to the host or downloaded.
 The browser objects themselves (MediaRecorder, canvas contexts, object URLs) are
 foreign; only the data the program observes of them is kept here.
 */
module Media {

  datatype Option<T> = None | Some(value: T)

  /** Raw bytes of one recorded chunk or of an assembled blob. */
  type Bytes = seq<bv8>

  /** MIME type of the recorder and of every video blob (webRTC.hook.js:98, 129, 138, 157). */
  const VideoMimeType: string := "video/webm"

  /** Defaults of getPhotoByBlob (webRTC.hook.js:205). */
  const DefaultPhotoMimeType: string := "image/jpeg"
  const DefaultPhotoQuality: real := 1.0

  /** MIME type downloadPhoto asks for (webRTC.hook.js:225). */
  const PngMimeType: string := "image/png"

  /** The fixed size of a taken photo, whatever the camera delivers (webRTC.hook.js:215-217). */
  const PhotoWidth: nat := 1480
  const PhotoHeight: nat := 1080

  /** Size of a canvas element that nobody has drawn on yet (the HTML default). */
  const BlankCanvas: Canvas := Canvas(300, 150, None)

  /** Every file name the program produces is "WebRTC_" + timestamp + extension. */
  const FilePrefix: string := "WebRTC_"
  const VideoExtension: string := ".webm"
  const PhotoExtension: string := ".png"

  /** Total number of bytes held by a list of chunks. */
  function TotalSize(chunks: seq<Bytes>): nat
  {
    if |chunks| == 0 then 0 else |chunks[0]| + TotalSize(chunks[1..])
  }

  /** The chunks laid end to end, first chunk first: the data of `new Blob(chunks)`. */
  function Concat(chunks: seq<Bytes>): (data: Bytes)
    ensures |data| == TotalSize(chunks)
  {
    if |chunks| == 0 then [] else chunks[0] + Concat(chunks[1..])
  }

  lemma {:induction false} TotalSizeAppend(a: seq<Bytes>, b: seq<Bytes>)
    ensures TotalSize(a + b) == TotalSize(a) + TotalSize(b)
  {
    if |a| == 0 {
      assert a + b == b;
    } else {
      assert (a + b)[1..] == a[1..] + b;
      TotalSizeAppend(a[1..], b);
    }
  }

  /** Concatenation distributes over appending chunk lists. */
  lemma {:induction false} ConcatAppend(a: seq<Bytes>, b: seq<Bytes>)
    ensures Concat(a + b) == Concat(a) + Concat(b)
  {
    if |a| == 0 {
      assert a + b == b;
    } else {
      assert (a + b)[1..] == a[1..] + b;
      ConcatAppend(a[1..], b);
    }
  }

  /** Chunk i sits in the concatenation right after the bytes of chunks 0..i-1. */
  lemma ConcatChunkAt(chunks: seq<Bytes>, i: nat)
    requires i < |chunks|
    ensures TotalSize(chunks[..i]) + |chunks[i]| <= |Concat(chunks)|
    ensures Concat(chunks)[TotalSize(chunks[..i]) .. TotalSize(chunks[..i]) + |chunks[i]|] == chunks[i]
  {
    var before, rest := chunks[..i], chunks[i..];
    assert chunks == before + rest;
    ConcatAppend(before, rest);
    assert rest[1..] == chunks[i + 1..];
    assert Concat(rest) == chunks[i] + Concat(chunks[i + 1..]);
  }

  /** A blob as the browser builds it from a chunk list and a type option. */
  datatype Blob = Blob(data: Bytes, mimeType: string)

  /**
   `new Blob(chunks, { type })`: the chunks in order, nothing added or dropped,
   so the blob is as large as all its chunks together.
   */
  function ChunksToBlob(chunks: seq<Bytes>, mimeType: string): (b: Blob)
    ensures b.mimeType == mimeType
    ensures |b.data| == TotalSize(chunks)
    ensures forall i :: 0 <= i < |chunks| ==>
              TotalSize(chunks[..i]) + |chunks[i]| <= |b.data| &&
              b.data[TotalSize(chunks[..i]) .. TotalSize(chunks[..i]) + |chunks[i]|] == chunks[i]
  {
    forall i | 0 <= i < |chunks|
      ensures TotalSize(chunks[..i]) + |chunks[i]| <= |Concat(chunks)|
      ensures Concat(chunks)[TotalSize(chunks[..i]) .. TotalSize(chunks[..i]) + |chunks[i]|] == chunks[i]
    {
      ConcatChunkAt(chunks, i);
    }
    Blob(Concat(chunks), mimeType)
  }

  /** One still frame of the live video element; its pixels are not modelled. */
  datatype Frame = Frame(id: nat)

  /** A canvas element: its pixel size and the frame last drawn onto it. */
  datatype Canvas = Canvas(width: nat, height: nat, picture: Option<Frame>)

  /** What `canvas.toBlob(resolve, mimeType, quality)` resolves with. */
  datatype ImageBlob = ImageBlob(source: Canvas, mimeType: string, quality: real)

  datatype FileContent = VideoData(video: Blob) | ImageData(image: ImageBlob)

  /** The type the encoder gave the content. */
  function ContentType(content: FileContent): string
  {
    match content
    case VideoData(v) => v.mimeType
    case ImageData(i) => i.mimeType
  }

  /** `new File(parts, name)` without a `type` option: the file's own type is empty. */
  const UntypedFile: string := ""

  /**
   A `File` handed to the host, or a file the browser downloads. `fileType` is
   the type the file itself reports: empty for a `File` built without a type
   option, the blob's type for a download through an object URL. The content's
   own type is what its encoder produced.
   */
  datatype NamedFile = NamedFile(name: string, fileType: string, content: FileContent)

  /** "WebRTC_" + timestamp + extension; the timestamp is an opaque string. */
  function FileName(timestamp: string, extension: string): (name: string)
    ensures |name| == |FilePrefix| + |timestamp| + |extension|
    ensures name[..|FilePrefix|] == FilePrefix
    ensures name[|FilePrefix| .. |FilePrefix| + |timestamp|] == timestamp
    ensures name[|name| - |extension|..] == extension
  {
    FilePrefix + timestamp + extension
  }
}
