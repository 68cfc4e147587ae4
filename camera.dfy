/**
 * The camera capture controller (frontend/src/components/CameraCapture.jsx):
 * a component with a `streaming` flag and a video element whose `srcObject`
 * is the granted camera stream.  Opening may fail in `getUserMedia`, in
 * attaching the stream, or in `play()`; closing stops every track and
 * detaches the stream; capturing snapshots the frame, hands one JPEG file to
 * the `onCapture` callback and closes the camera.
 */
module Camera {
  import opened Wrappers
  import opened Browser

  /** The buttons the component renders. */
  datatype Control = OpenCamera | CaptureFrame | CloseCamera

  /**
   * What the browser does when asked for the camera: refuse, or grant a stream
   * of `trackCount` tracks with the given frame size, whose `play()` then
   * succeeds or rejects.
   */
  datatype OpenOutcome =
    | Denied
    | Granted(trackCount: nat, frameWidth: nat, frameHeight: nat, playSucceeds: bool)

  const CaptureName := "capture.jpg"
  const CaptureType := "image/jpeg"
  const CaptureQuality := 0.95

  class CameraCapture {
    var streaming: bool
    /** `videoRef.current`: the mounted video element, or `null` before mounting. */
    const video: Video?

    constructor (video: Video?)
      ensures this.video == video
      ensures !streaming
    {
      this.video := video;
      streaming := false;
    }

    /** `videoRef.current?.srcObject`. */
    function Attached(): MediaStream?
      reads this, video
    {
      if video == null then null else video.srcObject
    }

    /** The buttons shown: Open while not streaming, Capture and Close while streaming. */
    function Controls(): (shown: seq<Control>)
      reads this
      ensures CaptureFrame in shown <==> streaming
      ensures CloseCamera in shown <==> streaming
      ensures OpenCamera in shown <==> !streaming
    {
      if !streaming then [OpenCamera] else [CaptureFrame, CloseCamera]
    }

    /**
     * `startCamera`.  `alerted` says the catch block ran; `acquired` is the
     * stream the browser granted, if it granted one.
     */
    method StartCamera(outcome: OpenOutcome) returns (alerted: bool, acquired: MediaStream?)
      modifies this, video
      ensures alerted <==> outcome.Denied? || video == null || !outcome.playSucceeds
      ensures streaming == if alerted then old(streaming) else true
      ensures outcome.Denied? ==> acquired == null && Attached() == old(Attached())
      ensures outcome.Granted? ==>
                && acquired != null && fresh(acquired)
                && |acquired.tracks| == outcome.trackCount
                && (forall t :: t in acquired.tracks ==> fresh(t) && !t.stopped)
                && acquired.frameWidth == outcome.frameWidth
                && acquired.frameHeight == outcome.frameHeight
                && (video != null ==> video.srcObject == acquired)
    {
      alerted, acquired := false, null;
      match outcome {
        case Denied =>
          alerted := true;
        case Granted(n, w, h, plays) =>
          acquired := new MediaStream(n, w, h);
          if video == null {
            // assigning `srcObject` on a missing element throws
            alerted := true;
          } else {
            video.srcObject := acquired;
            if plays {
              streaming := true;
            } else {
              alerted := true;
            }
          }
      }
    }

    /** `stopCamera`: stop every track of the attached stream, detach it, clear `streaming`. */
    method StopCamera()
      modifies this, video, TrackSet(Attached())
      ensures !streaming
      ensures Attached() == null
      ensures forall t :: t in TrackSet(old(Attached())) ==> t.stopped
    {
      var stream := if video == null then null else video.srcObject;
      if stream != null {
        var tracks := stream.tracks;
        var i := 0;
        while i < |tracks|
          invariant 0 <= i <= |tracks|
          invariant forall j :: 0 <= j < i ==> tracks[j].stopped
          modifies TrackSet(stream)
        {
          tracks[i].Stop();
          i := i + 1;
        }
        video.srcObject := null;
      }
      streaming := false;
    }

    /**
     * `capture`.  `snapshot` is the canvas drawn from the live frame and
     * `handed` the files passed to `onCapture`, in call order.
     */
    method Capture() returns (snapshot: Option<Canvas>, handed: seq<File>)
      modifies this, video, TrackSet(Attached())
      ensures video == null ==> snapshot == None && handed == [] && streaming == old(streaming)
      ensures video != null ==>
                && snapshot == Some(Canvas(old(video.VideoWidth()), old(video.VideoHeight())))
                && handed == [File(ToBlob(snapshot.value, CaptureType, CaptureQuality), CaptureName, CaptureType)]
                && !streaming
                && video.srcObject == null
                && (forall t :: t in TrackSet(old(Attached())) ==> t.stopped)
    {
      if video == null {
        return None, [];
      }
      var canvas := Canvas(video.VideoWidth(), video.VideoHeight());
      var blob := ToBlob(canvas, CaptureType, CaptureQuality);
      var file := File(blob, CaptureName, CaptureType);
      snapshot, handed := Some(canvas), [file];
      StopCamera();
    }
  }

  /** Closing a second time only re-clears `streaming`: closing is idempotent. */
  method CloseTwice(camera: CameraCapture)
    modifies camera, camera.video, TrackSet(camera.Attached())
    ensures !camera.streaming && camera.Attached() == null
    ensures forall t :: t in TrackSet(old(camera.Attached())) ==> t.stopped
  {
    camera.StopCamera();
    camera.StopCamera();
  }

  /** Opening and then closing without a capture leaves no live track of the granted stream. */
  method OpenThenClose(camera: CameraCapture, outcome: OpenOutcome) returns (acquired: MediaStream?)
    requires camera.video != null
    modifies camera, camera.video, TrackSet(camera.Attached())
    ensures outcome.Granted? ==> acquired != null && forall t :: t in acquired.tracks ==> t.stopped
    ensures !camera.streaming && camera.Attached() == null
  {
    var alerted;
    alerted, acquired := camera.StartCamera(outcome);
    camera.StopCamera();
  }

  /**
   * A `play()` failure leaves the granted stream attached and live while the
   * Close button is hidden; a second successful open replaces it, so nothing
   * can stop the first stream's tracks any more.
   */
  method PlayFailureLeaksStream(camera: CameraCapture, n: nat, w: nat, h: nat) returns (first: MediaStream?)
    requires camera.video != null && !camera.streaming
    modifies camera, camera.video
    ensures first != null && |first.tracks| == n
    ensures camera.streaming && camera.Attached() != first
    ensures forall t :: t in first.tracks ==> !t.stopped
  {
    var alerted, second;
    alerted, first := camera.StartCamera(Granted(n, w, h, false));
    assert camera.Attached() == first && !camera.streaming;
    assert CloseCamera !in camera.Controls();
    alerted, second := camera.StartCamera(Granted(0, w, h, true));
  }
}
