/**
 * The wire contract between the service's `analyze` handler
 * (backend/app.py) and the client (frontend/src/App.jsx,
 * frontend/src/components/ResultCard.jsx): what the client shows for each
 * body the service sends.  The client never recomputes the verdict; it shows
 * the label, the ensemble score and the sectors exactly as received.
 */
module Exchange {
  import opened Wrappers
  import opened Js
  import opened Browser
  import Backend
  import ResultCard
  import App

  /** The entry the client renders for one sector of the summary. */
  function SectorEntry(s: Backend.Sector): ResultCard.Entry {
    ResultCard.Entry(
      ResultCard.Raw(Some(JStr(s.name))),
      ResultCard.Fixed3(s.score),
      ResultCard.Raw(Some(JStr(s.reason))))
  }

  /** The card the client renders for a report of the service. */
  function ReportCard(body: Backend.Body): ResultCard.Card
    requires body.Report?
  {
    ResultCard.VerdictCard(
      ResultCard.Raw(Some(JStr(body.overallLabel))),
      ResultCard.Fixed3(body.ensemble),
      ResultCard.Entries(seq(|body.sectors|, i requires 0 <= i < |body.sectors| => SectorEntry(body.sectors[i]))))
  }

  /** A report renders as its label verbatim, its ensemble score to three decimals and one entry per sector, in order. */
  lemma ReportRendersVerbatim(body: Backend.Body)
    requires body.Report?
    ensures ResultCard.Render(Backend.BodyJson(body)) == ResultCard.Shown(ReportCard(body))
  {
    var json := Backend.BodyJson(body);
    var sectors := body.sectors;
    var items := seq(|sectors|, i requires 0 <= i < |sectors| => Backend.SectorJson(sectors[i]));
    assert "error" !in json.fields;
    assert Prop(json, "scores") == Some(JArr(items));
    assert Prop(json, "ensemble_score") == Some(JNum(body.ensemble));
    var entries := seq(|sectors|, i requires 0 <= i < |sectors| => SectorEntry(sectors[i]));
    forall i | 0 <= i < |items|
      ensures ResultCard.EntryFor(items[i]) == Some(entries[i])
    {
      assert Prop(items[i], "score") == Some(JNum(sectors[i].score));
    }
    var mapped := ResultCard.MapEntries(items);
    assert mapped.Some?;
    forall i | 0 <= i < |entries|
      ensures mapped.value[i] == entries[i]
    {
      assert ResultCard.EntryFor(items[i]) == Some(mapped.value[i]);
    }
    assert mapped.value == entries;
  }

  /** An error body with a non-empty message renders as that message alone. */
  lemma ErrorRendersMessage(body: Backend.Body)
    requires body.ErrorBody? && body.error != ""
    ensures ResultCard.Render(Backend.BodyJson(body)) == ResultCard.Shown(ResultCard.ErrorCard(JStr(body.error)))
  {
    assert Prop(Backend.BodyJson(body), "error") == Some(JStr(body.error));
  }

  /**
   * The service receiving a posted form: `request.files` holds each field of
   * the form under its name, and here every field carries what the service
   * makes of the one file posted (`part`).
   */
  method Serve(request: App.Request, part: Backend.ImagePart) returns (status: int, body: Backend.Body)
    requires |request.form| == 1 && request.form[0].name == "image"
    ensures body != Backend.ErrorBody("No image file provided")
    ensures status == 200 <==> body.Report?
    ensures status != 200 ==> part.Unreadable? && body.ErrorBody? && body.error != ""
  {
    var files := map entry | entry in request.form :: entry.name := part;
    assert files == map["image" := part] by {
      assert request.form[0] in request.form;
    }
    status, body := Backend.Analyze(files);
    if body.ErrorBody? {
      assert body.error == "Unable to open image: " + part.error;
      assert body.error[0] == 'U';
    }
  }

  /**
   * One submission end to end: the client posts `file` as the form's only
   * field, the service answers from what it makes of that file (`part`), and
   * the client publishes the body.  The service never reports a missing file
   * to this client, and what the page shows is the service's answer verbatim.
   */
  method Submit(root: App.Root, file: File, configured: Option<string>, part: Backend.ImagePart)
    returns (request: App.Request, status: int, body: Backend.Body)
    modifies root
    ensures request.form == [App.FormEntry("image", file)]
    ensures body != Backend.ErrorBody("No image file provided")
    ensures !root.loading && root.result == Backend.BodyJson(body)
    ensures status == 200 ==> body.Report? && root.View() == App.Page(false, App.Card(ResultCard.Shown(ReportCard(body))))
    ensures status != 200 ==>
              && part.Unreadable? && body.ErrorBody?
              && root.View() == App.Page(false, App.Card(ResultCard.Shown(ResultCard.ErrorCard(JStr(body.error)))))
  {
    var pending;
    request, pending := root.BeginAnalysis(file, configured);
    status, body := Serve(request, part);
    root.EndAnalysis(App.Parsed(status, Backend.BodyJson(body)));
    if body.Report? {
      ReportRendersVerbatim(body);
    } else {
      ErrorRendersMessage(body);
    }
  }
}
