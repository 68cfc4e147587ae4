/**
 * The browser objects the client touches, reduced to the state it reads or
 * changes: files and blobs as opaque values, media tracks that can be
 * stopped, a stream that owns its tracks, and the video element's
 * `srcObject`.  Device access, decoding and encoding are not modelled.
 */
module Browser {

  /** The size of a canvas bitmap. */
  datatype Canvas = Canvas(width: nat, height: nat)

  /**
   * Blob contents, symbolically: what `canvas.toBlob` produced from a canvas
   * with a MIME type and quality, the `null` it passes for an empty canvas, or
   * bytes the user picked (an opaque handle).
   */
  datatype Blob =
    | NullBlob
    | Encoded(canvas: Canvas, mimeType: string, quality: real)
    | Picked(handle: nat)

  /** `new File([content], name, {type: mimeType})`. */
  datatype File = File(content: Blob, name: string, mimeType: string)

  /**
   * `HTMLCanvasElement.toBlob`: a canvas with no pixels yields `null`
   * (the HTML Standard's `toBlob` algorithm); otherwise the encoding.
   */
  function ToBlob(canvas: Canvas, mimeType: string, quality: real): (b: Blob)
    ensures b.NullBlob? <==> canvas.width == 0 || canvas.height == 0
    ensures !b.NullBlob? ==> b == Encoded(canvas, mimeType, quality)
  {
    if canvas.width == 0 || canvas.height == 0 then NullBlob else Encoded(canvas, mimeType, quality)
  }

  /** A `MediaStreamTrack`: live until `stop()` ends it. */
  class Track {
    var stopped: bool

    constructor ()
      ensures !stopped
    {
      stopped := false;
    }

    /** `track.stop()`: ends the track; stopping an ended track changes nothing. */
    method Stop()
      modifies this
      ensures stopped
    {
      stopped := true;
    }
  }

  /** A `MediaStream` granted by the camera: its tracks and its frame size. */
  class MediaStream {
    const tracks: seq<Track>
    const frameWidth: nat
    const frameHeight: nat

    /** A new stream of `trackCount` fresh live tracks. */
    constructor (trackCount: nat, frameWidth: nat, frameHeight: nat)
      ensures |tracks| == trackCount
      ensures forall t :: t in tracks ==> fresh(t) && !t.stopped
      ensures this.frameWidth == frameWidth && this.frameHeight == frameHeight
    {
      var made: seq<Track> := [];
      while |made| < trackCount
        invariant |made| <= trackCount
        invariant forall t :: t in made ==> fresh(t) && !t.stopped
      {
        var t := new Track();
        made := made + [t];
      }
      tracks := made;
      this.frameWidth := frameWidth;
      this.frameHeight := frameHeight;
    }
  }

  /** The tracks of a stream, or none for `null`. */
  function TrackSet(s: MediaStream?): set<Track> {
    if s == null then {} else set t | t in s.tracks
  }

  /** A `<video>` element: the stream attached to it, if any. */
  class Video {
    var srcObject: MediaStream?

    constructor ()
      ensures srcObject == null
    {
      srcObject := null;
    }

    /** `video.videoWidth`: the attached stream's frame width, 0 with nothing attached. */
    function VideoWidth(): nat
      reads this
    {
      if srcObject == null then 0 else srcObject.frameWidth
    }

    /** `video.videoHeight`. */
    function VideoHeight(): nat
      reads this
    {
      if srcObject == null then 0 else srcObject.frameHeight
    }
  }
}
