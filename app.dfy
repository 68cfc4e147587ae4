/**
 * The root component (frontend/src/App.jsx): it owns `result` (initially
 * `null`) and `loading` (initially false), and `analyzeFile` changes them in
 * a fixed order: set `loading`, clear `result`, post the file, publish the
 * parsed body or an `{error}` record, and reset `loading` in `finally`.  The
 * page shows "Analyzing..." while `loading` and the result card while
 * `result` is truthy.  Both the camera and the file selector feed
 * `analyzeFile`.
 *
 * The network exchange is an input: how `fetch` and `resp.json()` end.  One
 * submission runs to completion; the component has no guard against a second
 * submission overlapping the first.
 */
module App {
  import opened Wrappers
  import opened Js
  import opened Browser
  import ResultCard
  import ImageUpload
  import Camera

  const DefaultEndpoint := "http://localhost:5000/analyze"
  const FallbackMessage := "Error analyzing image"

  /** One field of the multipart form. */
  datatype FormEntry = FormEntry(name: string, file: File)

  /** The request `fetch` is given. */
  datatype Request = Request(verb: string, url: string, form: seq<FormEntry>)

  /**
   * How the exchange ends: `resp.json()` gives a body (whatever the HTTP
   * status), or `fetch` or the parse throws, with `e.message` possibly
   * undefined.
   */
  datatype Exchange = Parsed(status: int, body: Json) | Threw(message: Option<string>)

  /**
   * The result slot: the falsy `result` itself, which React renders (the
   * number 0 as the text "0", `null`, `false` and "" as nothing), or the card.
   */
  datatype ResultArea = Falsy(value: Json) | Card(rendered: ResultCard.Rendered)

  /** What the result area shows: the "Analyzing..." line and the result slot. */
  datatype Page = Page(analyzing: bool, area: ResultArea)

  /** `process.env.REACT_APP_API_URL || "http://localhost:5000/analyze"`. */
  function Endpoint(configured: Option<string>): (url: string)
    ensures configured.Some? && configured.value != "" ==> url == configured.value
    ensures configured.None? || configured.value == "" ==> url == DefaultEndpoint
  {
    if configured.Some? && configured.value != "" then configured.value else DefaultEndpoint
  }

  /** `e.message || "Error analyzing image"`. */
  function ErrorText(message: Option<string>): (text: string)
    ensures text != ""
    ensures message.Some? && message.value != "" ==> text == message.value
    ensures message.None? || message.value == "" ==> text == FallbackMessage
  {
    if message.Some? && message.value != "" then message.value else FallbackMessage
  }

  /** The value `analyzeFile` publishes as `result` when the exchange ends. */
  function Outcome(exchange: Exchange): (result: Json)
    ensures exchange.Parsed? ==> result == exchange.body
    ensures exchange.Threw? ==> result == JObj(map["error" := JStr(ErrorText(exchange.message))])
    ensures exchange.Threw? ==> Truthy(Prop(result, "error"))
  {
    match exchange
    case Parsed(_, body) => body
    case Threw(message) => JObj(map["error" := JStr(ErrorText(message))])
  }

  /** `{loading && ...}` and `{result && <ResultCard result={result} />}`. */
  function PageOf(loading: bool, result: Json): (page: Page)
    ensures page.analyzing == loading
    ensures page.area.Card? <==> Truthy(Some(result))
    ensures page.area.Card? ==> page.area.rendered == ResultCard.Render(result)
    ensures page.area.Falsy? ==> page.area.value == result
  {
    Page(loading, if Truthy(Some(result)) then Card(ResultCard.Render(result)) else Falsy(result))
  }

  /** A failed exchange ends with no "Analyzing..." and a card holding only a non-empty message. */
  lemma ThrownExchangeShowsMessage(message: Option<string>)
    ensures PageOf(false, Outcome(Threw(message))) ==
            Page(false, Card(ResultCard.Shown(ResultCard.ErrorCard(JStr(ErrorText(message))))))
  {
    var result := Outcome(Threw(message));
    assert Prop(result, "error") == Some(JStr(ErrorText(message)));
  }

  /** A parsed `{"error": ...}` body, such as the service's 400 reply, is shown as its message alone. */
  lemma ErrorBodyShowsMessage(status: int, message: string)
    requires message != ""
    ensures PageOf(false, Outcome(Parsed(status, JObj(map["error" := JStr(message)])))) ==
            Page(false, Card(ResultCard.Shown(ResultCard.ErrorCard(JStr(message)))))
  {
    var result := JObj(map["error" := JStr(message)]);
    assert Prop(result, "error") == Some(JStr(message));
  }

  class Root {
    var result: Json
    var loading: bool

    constructor ()
      ensures result == JNull && !loading
      ensures PageOf(loading, result) == Page(false, Falsy(JNull))
    {
      result := JNull;
      loading := false;
    }

    /** The result area as currently rendered. */
    function View(): Page
      reads this
    {
      PageOf(loading, result)
    }

    /**
     * `analyzeFile` up to its `await`: the two state updates that precede any
     * network work, then the request handed to `fetch`.  `pending` is the
     * page while the request is in flight.
     */
    method BeginAnalysis(file: File, configured: Option<string>) returns (request: Request, pending: Page)
      modifies this
      ensures loading && result == JNull
      ensures pending == PageOf(true, JNull) && pending == Page(true, Falsy(JNull))
      ensures request == Request("POST", Endpoint(configured), [FormEntry("image", file)])
    {
      loading := true;
      result := JNull;
      var form: seq<FormEntry> := [];
      form := form + [FormEntry("image", file)];
      request := Request("POST", Endpoint(configured), form);
      pending := View();
    }

    /** `analyzeFile` after its `await`: publish the body or an `{error}` record, then reset `loading`. */
    method EndAnalysis(exchange: Exchange)
      modifies this
      ensures !loading && result == Outcome(exchange)
    {
      match exchange {
        case Parsed(_, body) =>
          result := body;
        case Threw(message) =>
          result := JObj(map["error" := JStr(ErrorText(message))]);
      }
      loading := false;
    }

    /** `analyzeFile`: one submission, from the click to the published result. */
    method AnalyzeFile(file: File, configured: Option<string>, exchange: Exchange)
      returns (request: Request, pending: Page)
      modifies this
      ensures pending == PageOf(true, JNull) && pending == Page(true, Falsy(JNull))
      ensures request == Request("POST", Endpoint(configured), [FormEntry("image", file)])
      ensures !loading && result == Outcome(exchange)
    {
      request, pending := BeginAnalysis(file, configured);
      EndAnalysis(exchange);
    }
  }

  /** `<ImageUpload onUpload={analyzeFile} />` receiving a change of the file input. */
  method Upload(root: Root, files: seq<File>, configured: Option<string>, exchange: Exchange)
    returns (request: Option<Request>)
    modifies root
    ensures files == [] ==> request.None? && root.result == old(root.result) && root.loading == old(root.loading)
    ensures files != [] ==>
              && request == Some(Request("POST", Endpoint(configured), [FormEntry("image", files[0])]))
              && !root.loading && root.result == Outcome(exchange)
  {
    request := None;
    match ImageUpload.HandleFile(files) {
      case None =>
      case Some(file) =>
        var sent, pending := root.AnalyzeFile(file, configured, exchange);
        request := Some(sent);
    }
  }

  /**
   * `<CameraCapture onCapture={analyzeFile} />` after a click on Capture: the
   * camera is released and the captured JPEG is what gets posted.
   * `analyzeFile` and `stopCamera` touch disjoint state, so running the
   * camera's part first gives the same final state as the component's order.
   */
  method CaptureAndAnalyze(root: Root, camera: Camera.CameraCapture, configured: Option<string>, exchange: Exchange)
    returns (request: Option<Request>)
    modifies root, camera, camera.video, TrackSet(camera.Attached())
    ensures camera.video == null ==>
              request.None? && root.result == old(root.result) && root.loading == old(root.loading)
              && camera.streaming == old(camera.streaming)
    ensures camera.video != null ==>
              var frame := Canvas(old(camera.video.VideoWidth()), old(camera.video.VideoHeight()));
              var jpeg := File(ToBlob(frame, Camera.CaptureType, Camera.CaptureQuality), Camera.CaptureName, Camera.CaptureType);
              && request == Some(Request("POST", Endpoint(configured), [FormEntry("image", jpeg)]))
              && !camera.streaming && camera.Attached() == null
              && (forall t :: t in TrackSet(old(camera.Attached())) ==> t.stopped)
              && !root.loading && root.result == Outcome(exchange)
  {
    request := None;
    var snapshot, handed := camera.Capture();
    if handed != [] {
      var sent, pending := root.AnalyzeFile(handed[0], configured, exchange);
      request := Some(sent);
    }
  }
}
