# PixProof image forensics — a Dafny model of the client and the verdict logic

PixProof lets a user take a photo with the camera or pick a local image, posts
it to an analysis service, and shows the verdict the service returns: a label
("Fake/Synthetic" or "Real"), an ensemble score, and five scored sectors.
This project models the parts of that system that hold state or make
decisions, and proves what they promise:

- **Camera capture** (`camera.dfy`, class `Camera.CameraCapture`): the
  `streaming` flag and the video element's attached stream. Opening can fail in
  three places. Closing stops every track and detaches the stream. A capture
  hands exactly one JPEG file to `onCapture` and then closes the camera.
- **Root component** (`app.dfy`, class `App.Root`): `result` and `loading`,
  changed by `analyzeFile` in a fixed order. It also decides when the page shows
  "Analyzing..." and the result card, and wires both acquisition paths into
  `analyzeFile`.
- **Result card** (`result_card.dfy`): a pure function from the stored result
  to the rendered card. It has an error branch, a 0 default for the ensemble
  score and an order-preserving map over the sectors. It also records where the
  component would throw a `TypeError`.
- **File selector** (`image_upload.dfy`): the first chosen file is forwarded,
  and nothing happens when no file was chosen.
- **Service verdict** (`backend.dfy`): request validation, the EXIF decision
  table (a loop proved against a reference definition), each analyser's cap and
  fallback constants, the five-way mean, the `> 0.5` label threshold and the
  fixed-order five-sector summary.
- **Wire contract** (`exchange.dfy`): every body the service sends is shown by
  the client verbatim. A report becomes its label, its score and its five
  sectors in order. An error body becomes its message alone.

Supporting modules: `wrappers.dfy` (Option, Result) and `js.dfy` (JSON values,
JavaScript truthiness and property access). `browser.dfy` holds files, blobs,
media tracks, streams and the video element.

Browser and device effects are inputs to the model:
- `getUserMedia` and `play()`: `Camera.OpenOutcome`
- `fetch` plus `resp.json()`: `App.Exchange`
- the `REACT_APP_API_URL` setting: an `Option<string>`
- what the image libraries compute: `Backend.Probe` and `Backend.ExifRead`

Scores are reals. `toFixed(3)` is the symbolic cell `Fixed3(x)`.

Behaviour of the code worth knowing, which the model keeps:
- The configured URL is used as the full endpoint, and it falls back when it is unset or empty. Nothing is appended to it.
- A non-2xx reply with a JSON body is stored and shown unchanged. It is not turned into a separate error state.
- If `play()` fails, the granted stream stays attached and live. `streaming` stays false, so the Close button stays hidden. A later open replaces that stream, and its tracks can then never be stopped (`Camera.PlayFailureLeaksStream`).
- The component has no unmount cleanup, so nothing releases the camera on teardown.
- `capture` does not check `streaming`; only the hidden button prevents a capture while not streaming. Capturing with no stream attached draws a 0×0 canvas, for which `toBlob` passes `null`.
- There is no in-flight guard and no generation counter.
- Any falsy ensemble score shows as 0, not only a missing one. A truthy ensemble score that is not a number makes the card throw.
- A falsy parsed body is not hidden: `{result && …}` renders the value itself, so a body that is the number 0 shows the text "0" (`App.ResultArea.Falsy`).

## Model

| member | source | states |
|---|---|---|
| Backend.ContainsIffOccurs | backend/app.py:30 | the substring test `"Unknown" in str(value)` holds exactly when the text occurs contiguously in the value |
| Backend.ItemIssues | backend/app.py:28-33 | one loop pass raises exactly for a Make/Model value whose `str()` fails. Otherwise it appends nothing for an unflagged item and exactly one entry (`Suspicious <tag>: <value>` or `Missing timestamp`) for a flagged one |
| Backend.ScanFaultSticky | backend/app.py:35-37 | once an item has raised, the loop is left: later items add nothing |
| Backend.ScanMatchesFlagged | backend/app.py:28-33 | with no raising item, the loop records exactly the flagged items' entries, in dictionary order, and raises nothing |
| Backend.ScanStopsAtFirstFault | backend/app.py:28-37 | the loop stops at the first raising item. It keeps the entries of the flagged items before it, and that item's error is the one reported |
| Backend.MetadataOf | backend/app.py:20-38 | the metadata score is one of 0.2, 0.4, 0.6, 1.0, and it is 1.0 exactly when there are no suspicious fields |
| Backend.MetadataDecisionTable | backend/app.py:20-38 | the decision table: a raising read gives 0.2 and the error entry. No EXIF gives 0.4 and "No EXIF data (possible editing)". Otherwise the result is 1.0 with no flagged items, 0.6 with the flagged entries in order, or 0.2 with the entries before the first raising item plus its error |
| Backend.AnalyzeMetadataPil | backend/app.py:20-38 | the appending loop computes exactly the score and suspicious fields of the decision table |
| Backend.ElaScore | backend/app.py:40-56 | the ELA score never exceeds 1.0. It equals the mean difference over 50 below the cap, is non-negative for a non-negative mean, and is 0.2 when the analysis raises |
| Backend.NoiseAnalysis | backend/app.py:58-65 | the noise score never exceeds 1.0. It equals the residual deviation over 10 below the cap and is non-negative for a non-negative deviation. On an exception it is 0.2 with reason `Error in PRNU: <e>` |
| Backend.GanAnalysis | backend/app.py:67-82 | the GAN score is one minus the class-0 probability, so it lies in [0,1] for a probability in [0,1]. On an exception it is 0.5 with reason `GAN detection error: <e>` |
| Backend.VisualAnalysis | backend/app.py:84-91 | the visual score never exceeds 1.0. It equals the grey deviation over 80 below the cap and is non-negative for a non-negative deviation. On an exception it is 0.4 with reason `Visual check error: <e>` |
| Backend.SectorScores | backend/app.py:130 | exactly five sector scores; all but the GAN score are at most 1.0, and all lie in [0,1] when the library statistics are plausible |
| Backend.SumBetween | backend/app.py:131 | the sum of n values that each lie in [lo, hi] lies in [n·lo, n·hi] |
| Backend.MeanBetween | backend/app.py:131 | a mean lies within any bounds that every element satisfies |
| Backend.EnsembleInUnit | backend/app.py:130-131 | with plausible statistics the ensemble score, the mean of the five sector scores, lies in [0,1] |
| Backend.Analyze | backend/app.py:99-147 | a request without an `image` file gets 400 and "No image file provided". An undecodable image gets 400 and "Unable to open image: <e>". Otherwise the reply is 200 with five sectors named Metadata, ELA, Noise/PRNU, GAN Detection, Visual Checks, in that order, with their scores and reasons. The ensemble is their mean. The label is "Fake/Synthetic" iff the ensemble exceeds 0.5, else "Real", so 0.5 is Real. The Metadata reason is the issues joined by ", " or "OK" |
| Browser.ToBlob | frontend/src/components/CameraCapture.jsx:35 | the encoder yields null exactly for a canvas without pixels; every other result is the encoding of that canvas with the given type and quality |
| Browser.Track.Stop | frontend/src/components/CameraCapture.jsx:22 | stopping a track ends it |
| Browser.MediaStream.constructor | frontend/src/components/CameraCapture.jsx:9 | a granted stream consists of fresh, live tracks with the camera's frame size |
| Camera.CameraCapture.constructor | frontend/src/components/CameraCapture.jsx:4-5 | the controller starts not streaming |
| Camera.CameraCapture.Controls | frontend/src/components/CameraCapture.jsx:48-55 | Capture and Close are offered exactly while streaming, and Open exactly while not streaming |
| Camera.CameraCapture.StartCamera | frontend/src/components/CameraCapture.jsx:7-16 | the alert is raised exactly when access is denied, the video element is missing, or `play()` fails. `streaming` becomes true only when none of these happened. A granted stream is fresh and live, and it stays attached to an existing video element even when `play()` then fails |
| Camera.CameraCapture.StopCamera | frontend/src/components/CameraCapture.jsx:18-26 | every track of the attached stream is stopped, the stream is detached, and `streaming` is false. With nothing attached, no track changes |
| Camera.CameraCapture.Capture | frontend/src/components/CameraCapture.jsx:28-41 | with no video element nothing happens. Otherwise the snapshot canvas has exactly the video's width and height. Exactly one file, `capture.jpg` of type `image/jpeg` at quality 0.95, is handed on, and then the camera is closed as by StopCamera |
| Camera.CloseTwice | frontend/src/components/CameraCapture.jsx:18-26 | closing twice has the effect of closing once |
| Camera.OpenThenClose | frontend/src/components/CameraCapture.jsx:7-26 | opening and then closing, with no capture in between, leaves every track of the granted stream stopped |
| Camera.PlayFailureLeaksStream | frontend/src/components/CameraCapture.jsx:9-15 | after a `play()` failure and a second successful open, the first stream is no longer attached and all its tracks are still live |
| ResultCard.EntryFor | frontend/src/components/ResultCard.jsx:17-21 | an entry shows the element's sector and reason. A number score goes through `toFixed(3)`, and any other score is shown raw. The entry throws exactly for a null element or for an object score with a truthy `toFixed` member |
| ResultCard.EnsembleCell | frontend/src/components/ResultCard.jsx:11 | `(ensemble_score \|\| 0).toFixed(3)` succeeds exactly when the score is falsy or a number |
| ResultCard.MapEntries | frontend/src/components/ResultCard.jsx:16-22 | one entry per element of `scores`, in the received order; the map throws exactly when some element's entry throws |
| ResultCard.GridFor | frontend/src/components/ResultCard.jsx:16-22 | `scores && scores.map(…)` succeeds exactly when `scores` is falsy, or is an array none of whose elements throws |
| ResultCard.Render | frontend/src/components/ResultCard.jsx:3-26 | the component throws exactly for a null result, or, without a truthy `error`, when the ensemble cell or the grid throws; a result without a truthy `error` that does not throw is shown as a verdict card; so a result with a missing or falsy ensemble and missing `scores` is shown. A truthy `error` gives a card with only that message. Otherwise the verdict is `overall_label` verbatim and the ensemble is `ensemble_score` through `toFixed(3)`, or 0 when falsy. A falsy `scores` gives no entries; otherwise `scores` is an array and there is one entry per element, in order |
| ResultCard.LabelOnlyVerdict | frontend/src/components/ResultCard.jsx:10-16 | a result with only `overall_label` is shown as a verdict card with that label verbatim, the ensemble 0 and no entries |
| ResultCard.ExampleVerdict | frontend/src/components/ResultCard.jsx:10-21 | a one-sector fake verdict renders its label, 0.734, the sector "metadata", 0.81 through `toFixed(3)` and the reason "EXIF mismatch" |
| ImageUpload.HandleFile | frontend/src/components/ImageUpload.jsx:6-9 | nothing is forwarded exactly when no file was chosen; otherwise the first chosen file is forwarded |
| ImageUpload.OnEvent | frontend/src/components/ImageUpload.jsx:14-15 | the Choose File button only opens the picker and forwards nothing. A change of the input forwards the first file, if any, and opens nothing |
| App.Endpoint | frontend/src/App.jsx:21-22 | the request goes to the configured URL when it is set and non-empty, else to `http://localhost:5000/analyze` |
| App.ErrorText | frontend/src/App.jsx:32 | the published error is the exception message when non-empty, else "Error analyzing image"; it is never empty |
| App.Outcome | frontend/src/App.jsx:28-32 | a parsed body is published exactly as received, whatever the status. A thrown exchange publishes `{error: message}` with a truthy error |
| App.PageOf | frontend/src/App.jsx:72-77 | "Analyzing..." is shown iff `loading`. The result card is shown iff `result` is truthy, and it is the card rendered from `result`; otherwise the slot holds the falsy value itself, which React renders ("0" for the number 0) |
| App.ThrownExchangeShowsMessage | frontend/src/App.jsx:30-35 | after a failed exchange the page shows no "Analyzing..." and a card with only the non-empty error message |
| App.ErrorBodyShowsMessage | frontend/src/App.jsx:28-29 | a parsed `{"error": m}` body, as from a 400 reply, is shown as the message alone |
| App.Root.constructor | frontend/src/App.jsx:9-10 | `result` starts null and `loading` false, so the page starts empty |
| App.Root.BeginAnalysis | frontend/src/App.jsx:13-27 | before the `await`, `loading` is set and `result` cleared, so the page shows "Analyzing..." and no card; the request is a POST to the endpoint of a form whose only field is `image` holding the file |
| App.Root.EndAnalysis | frontend/src/App.jsx:28-35 | after the `await`, `result` is the exchange's outcome and `loading` is false |
| App.Root.AnalyzeFile | frontend/src/App.jsx:13-36 | while the request is in flight the page shows "Analyzing..." and no card. The request is a POST of a form whose only field is `image` holding the file. Afterwards `loading` is false and `result` is the exchange's outcome |
| App.Upload | frontend/src/App.jsx:68 | a cancelled selection leaves `result` and `loading` unchanged and posts nothing; otherwise the first file is posted through `analyzeFile` |
| App.CaptureAndAnalyze | frontend/src/App.jsx:67 | without a video element nothing changes and nothing is posted; otherwise a capture releases the camera and posts the captured JPEG through the same `analyzeFile` |
| Exchange.ReportRendersVerbatim | backend/app.py:142-147 | a report renders as its label verbatim, its ensemble score through `toFixed(3)`, and one entry per sector in the service's order |
| Exchange.ErrorRendersMessage | backend/app.py:105-113 | an error body with a non-empty message renders as that message alone |
| Exchange.Serve | backend/app.py:105-113 | the service, given the form the client posts (its fields keyed by name), never answers "No image file provided"; it answers 200 exactly with a report, and any other answer is a non-empty error from an unreadable image |
| Exchange.Submit | frontend/src/App.jsx:13-35 | the service receives the form `analyzeFile` posted, so the client never receives "No image file provided". A 200 reply ends with the report's card. Any other reply comes from an unreadable image and ends with its message alone |

## Left out

- Header and Footer: static markup with no logic.
- The parallax scroll effect (`bgPos`), all styling and layout, and the `console.error` log line.
- The alert's wording. `StartCamera` reports only that the alert was raised.
- Device and network APIs (`getUserMedia`, `play`, `drawImage`, `File`, `FormData`, `fetch`, `resp.json`). Each is an outcome given to the model. Asynchrony is left out: `play()` and the `toBlob` callback complete in sequence, and the video's size is known as soon as a stream is attached.
- JPEG encoding and file contents. A captured file's content is the symbolic blob of its canvas, type and quality. `File([null], …)` for an empty canvas is kept as the null blob.
- The digits `toFixed(3)` produces, and how React turns a raw value into text (including its throw for a plain object as a child).
- App.CaptureAndAnalyze: the component runs the synchronous start of `analyzeFile` before `stopCamera`, while the model stops the camera first. The two touch disjoint state, so the final state is the same.
- The numeric bodies of the ELA, noise, GAN and visual analysers (PIL, OpenCV, numpy, a ResNet18). Each is its resulting statistic or the error it raised. NaN, float rounding and `np.mean`'s float arithmetic are not modelled; scores are reals.
- The EXIF tag-name lookup table. Items carry resolved names, and an unknown numeric tag is a name outside both tag lists. Exceptions in the EXIF loop other than `str()` of a Make or Model value are not modelled.
- Whether reading EXIF is possible on the RGB-converted image depends on the imaging library, so all three read outcomes are kept.
- Overlapping submissions and out-of-order responses. The code has no guard, and their interleaving is a concurrency concern.
- Flask routing, CORS, the `/` health endpoint and the server start-up.
