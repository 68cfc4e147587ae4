/**
 * The result renderer (frontend/src/components/ResultCard.jsx): a pure
 * function from the stored result to the card it renders.  A truthy `error`
 * gives a card with only that message; otherwise the card shows the verdict
 * label as received, the ensemble score through `toFixed(3)` (0 when missing
 * or falsy) and one entry per element of `scores`, in order.  Where the
 * component would throw a `TypeError` the model says so.
 *
 * Cells keep the value React receives: `Raw(v)` is a value rendered as it is,
 * `Fixed3(x)` is the string `x.toFixed(3)`.  How React turns a raw value into
 * text, and the digits `toFixed` produces, are not modelled.
 */
module ResultCard {
  import opened Wrappers
  import opened Js

  datatype Cell = Raw(value: Option<Json>) | Fixed3(x: real)

  /** One sector entry: name, score and reason. */
  datatype Entry = Entry(sector: Cell, score: Cell, reason: Cell)

  /** The grid: the falsy `scores` value itself (React renders it), or the mapped entries. */
  datatype Grid = Skipped(falsy: Option<Json>) | Entries(entries: seq<Entry>)

  datatype Card =
    | ErrorCard(message: Json)
    | VerdictCard(verdict: Cell, ensemble: Cell, grid: Grid)

  /** The card, or the `TypeError` the component throws while rendering. */
  datatype Rendered = Shown(card: Card) | TypeError

  /** `(v || 0).toFixed(3)`: only numbers have `toFixed`; any other truthy value throws. */
  function EnsembleCell(v: Option<Json>): (r: Option<Cell>)
    ensures r.Some? <==> !Truthy(v) || v.value.JNum?
  {
    if !Truthy(v) then Some(Fixed3(0.0))
    else if v.value.JNum? then Some(Fixed3(v.value.n))
    else None
  }

  /**
   * `s.score?.toFixed ? s.score.toFixed(3) : s.score`: numbers are formatted;
   * `undefined`, `null`, strings, booleans and arrays have no `toFixed` and are
   * shown raw; an object with a truthy `toFixed` member calls a non-function
   * and throws.
   */
  function ScoreCell(v: Option<Json>): Option<Cell> {
    if v.None? then Some(Raw(v))
    else match v.value
      case JNum(n) => Some(Fixed3(n))
      case JObj(_) => if Truthy(Prop(v.value, "toFixed")) then None else Some(Raw(v))
      case _ => Some(Raw(v))
  }

  /** The entry for one element of `scores`; reading a property of `null` throws. */
  function EntryFor(s: Json): (r: Option<Entry>)
    ensures r.None? <==>
              || s.JNull?
              || (Prop(s, "score").Some? && Prop(s, "score").value.JObj? &&
                  Truthy(Prop(Prop(s, "score").value, "toFixed")))
    ensures r.Some? ==> r.value.sector == Raw(Prop(s, "sector")) && r.value.reason == Raw(Prop(s, "reason"))
    ensures r.Some? && Prop(s, "score").Some? && Prop(s, "score").value.JNum? ==>
              r.value.score == Fixed3(Prop(s, "score").value.n)
    ensures r.Some? && !(Prop(s, "score").Some? && Prop(s, "score").value.JNum?) ==>
              r.value.score == Raw(Prop(s, "score"))
  {
    if s.JNull? then None
    else match ScoreCell(Prop(s, "score"))
      case None => None
      case Some(score) => Some(Entry(Raw(Prop(s, "sector")), score, Raw(Prop(s, "reason"))))
  }

  /** `scores.map(...)`: one entry per element, in order, or a throw if any element throws. */
  function MapEntries(items: seq<Json>): (r: Option<seq<Entry>>)
    ensures r.Some? <==> forall i :: 0 <= i < |items| ==> EntryFor(items[i]).Some?
    ensures r.Some? ==> |r.value| == |items|
    ensures r.Some? ==> forall i :: 0 <= i < |items| ==> EntryFor(items[i]) == Some(r.value[i])
  {
    if items == [] then Some([])
    else match (EntryFor(items[0]), MapEntries(items[1..]))
      case (Some(e), Some(rest)) => Some([e] + rest)
      case _ => None
  }

  /** `result.scores && result.scores.map(...)`: only arrays have `map`. */
  function GridFor(scores: Option<Json>): (r: Option<Grid>)
    ensures r.Some? <==>
              || !Truthy(scores)
              || (scores.value.JArr? && forall i :: 0 <= i < |scores.value.items| ==> EntryFor(scores.value.items[i]).Some?)
  {
    if !Truthy(scores) then Some(Skipped(scores))
    else if !scores.value.JArr? then None
    else match MapEntries(scores.value.items)
      case Some(entries) => Some(Entries(entries))
      case None => None
  }

  /** The `ResultCard` component. */
  function Render(result: Json): (r: Rendered)
    ensures result.JNull? ==> r == TypeError
    ensures r == TypeError <==>
              || result.JNull?
              || (&& !Truthy(Prop(result, "error"))
                  && (EnsembleCell(Prop(result, "ensemble_score")).None? || GridFor(Prop(result, "scores")).None?))
    ensures Truthy(Prop(result, "error")) ==> r == Shown(ErrorCard(Prop(result, "error").value))
    ensures r.Shown? && !Truthy(Prop(result, "error")) ==> r.card.VerdictCard?
    ensures r.Shown? && r.card.VerdictCard? ==>
              && !Truthy(Prop(result, "error"))
              && r.card.verdict == Raw(Prop(result, "overall_label"))
    ensures r.Shown? && r.card.VerdictCard? && !Truthy(Prop(result, "ensemble_score")) ==>
              r.card.ensemble == Fixed3(0.0)
    ensures r.Shown? && r.card.VerdictCard? && Prop(result, "ensemble_score").Some? &&
            Prop(result, "ensemble_score").value.JNum? ==>
              r.card.ensemble == Fixed3(Prop(result, "ensemble_score").value.n)
    ensures r.Shown? && r.card.VerdictCard? && !Truthy(Prop(result, "scores")) ==>
              r.card.grid == Skipped(Prop(result, "scores"))
    ensures r.Shown? && r.card.VerdictCard? && Truthy(Prop(result, "scores")) ==>
              && Prop(result, "scores").value.JArr?
              && r.card.grid.Entries?
              && |r.card.grid.entries| == |Prop(result, "scores").value.items|
              && forall i :: 0 <= i < |r.card.grid.entries| ==>
                   EntryFor(Prop(result, "scores").value.items[i]) == Some(r.card.grid.entries[i])
  {
    if result.JNull? then TypeError
    else
      var error := Prop(result, "error");
      if Truthy(error) then Shown(ErrorCard(error.value))
      else match (EnsembleCell(Prop(result, "ensemble_score")), GridFor(Prop(result, "scores")))
        case (Some(ensemble), Some(grid)) =>
          Shown(VerdictCard(Raw(Prop(result, "overall_label")), ensemble, grid))
        case _ => TypeError
  }

  /** A result holding only a label shows that label, the ensemble 0 and no entries. */
  lemma LabelOnlyVerdict(shown: Json)
    ensures Render(JObj(map["overall_label" := shown])) ==
            Shown(VerdictCard(Raw(Some(shown)), Fixed3(0.0), Skipped(None)))
  {
    var result := JObj(map["overall_label" := shown]);
    assert "error" !in result.fields && "ensemble_score" !in result.fields && "scores" !in result.fields;
  }

  /** The card for the result the service sends for a fake image, with one sector. */
  lemma ExampleVerdict()
    ensures
      var sector := JObj(map["sector" := JStr("metadata"), "score" := JNum(0.81), "reason" := JStr("EXIF mismatch")]);
      var result := JObj(map[
        "overall_label" := JStr("Fake/Synthetic"),
        "ensemble_score" := JNum(0.734),
        "scores" := JArr([sector])]);
      Render(result) == Shown(VerdictCard(
        Raw(Some(JStr("Fake/Synthetic"))),
        Fixed3(0.734),
        Entries([Entry(Raw(Some(JStr("metadata"))), Fixed3(0.81), Raw(Some(JStr("EXIF mismatch"))))])))
  {
    var sector := JObj(map["sector" := JStr("metadata"), "score" := JNum(0.81), "reason" := JStr("EXIF mismatch")]);
    var result := JObj(map[
      "overall_label" := JStr("Fake/Synthetic"),
      "ensemble_score" := JNum(0.734),
      "scores" := JArr([sector])]);
    var entry := Entry(Raw(Some(JStr("metadata"))), Fixed3(0.81), Raw(Some(JStr("EXIF mismatch"))));
    assert "error" !in result.fields;
    assert EntryFor(sector) == Some(entry);
    assert [sector][1..] == [];
    assert MapEntries([sector][1..]) == Some([]);
    assert [entry] + [] == [entry];
  }
}
