/**
 * The decision logic of the analysis service (backend/app.py): the EXIF
 * decision table, the clamp and fallback of each analyser, request
 * validation, the five-way mean, the 0.5 label threshold and the fixed-order
 * five-sector summary.  Image decoding and the numeric bodies of the
 * analysers (PIL, OpenCV, numpy, a ResNet18) are opaque here: the model
 * receives the statistic each of them produces, or the error it raised, and
 * keeps only what the service does with it.  Scores are reals.
 */
module Backend {
  import opened Wrappers
  import opened Js

  // ------------------------------------------------------------ metadata

  /**
   * An EXIF value as the metadata check sees it: Python `None`, a value whose
   * `str()` is `text`, or a value whose `str()` raises with `error`.
   */
  datatype ExifValue = PyNone | Val(text: string) | Unprintable(error: string)

  /** One item of the EXIF dictionary, with its tag already resolved to a name. */
  datatype ExifItem = ExifItem(tag: string, value: ExifValue)

  /** What reading the EXIF block does: raise, give `None`, or give the items in dictionary order. */
  datatype ExifRead = ReadFails(error: string) | NoExif | Exif(items: seq<ExifItem>)

  /** The pair `(metadata_score, suspicious_fields)`. */
  datatype Metadata = Metadata(score: real, issues: seq<string>)

  const NoExifIssue := "No EXIF data (possible editing)"
  const MissingTimestamp := "Missing timestamp"
  const IdentityTags := ["Make", "Model"]
  const TimestampTags := ["DateTimeOriginal", "DateTime"]

  function ErrorIssue(error: string): string { "Error reading EXIF: " + error }

  function SuspiciousIssue(tag: string, text: string): string { "Suspicious " + tag + ": " + text }

  /** Python's `part in s` on strings. */
  function Contains(s: string, part: string): bool
    decreases |s|
  {
    if |s| < |part| then false
    else if s[..|part|] == part then true
    else Contains(s[1..], part)
  }

  /** `part` occurs in `s` starting at index `i`. */
  predicate OccursAt(s: string, part: string, i: int) {
    0 <= i && i + |part| <= |s| && s[i..i + |part|] == part
  }

  /** `Contains` finds exactly the contiguous occurrences of `part`. */
  lemma {:induction false} ContainsIffOccurs(s: string, part: string)
    ensures Contains(s, part) <==> exists i :: OccursAt(s, part, i)
    decreases |s|
  {
    if |s| < |part| {
    } else if s[..|part|] == part {
      assert OccursAt(s, part, 0);
    } else {
      ContainsIffOccurs(s[1..], part);
      if Contains(s[1..], part) {
        var j :| OccursAt(s[1..], part, j);
        OccursInTail(s, part, j + 1);
      } else {
        forall i | OccursAt(s, part, i)
          ensures false
        {
          if i > 0 {
            OccursInTail(s, part, i);
          }
        }
      }
    }
  }

  /** An occurrence past the first character is an occurrence in the tail, one place earlier. */
  lemma OccursInTail(s: string, part: string, i: int)
    requires 1 <= i && i + |part| <= |s|
    ensures OccursAt(s, part, i) <==> OccursAt(s[1..], part, i - 1)
  {
    assert s[1..][i - 1..i - 1 + |part|] == s[i..i + |part|];
  }

  /** An item on which the loop raises: `str()` of a Make or Model value fails. */
  predicate Faulty(item: ExifItem) {
    item.tag in IdentityTags && item.value.Unprintable?
  }

  /** An item the loop records as suspicious. */
  predicate Flagged(item: ExifItem) {
    || (item.tag in IdentityTags && item.value.Val? && Contains(item.value.text, "Unknown"))
    || (item.tag in TimestampTags && item.value.PyNone?)
  }

  /** The entry recorded for a flagged item. */
  function FlagMessage(item: ExifItem): string
    requires Flagged(item)
  {
    if item.tag in IdentityTags then SuspiciousIssue(item.tag, item.value.text) else MissingTimestamp
  }

  /** One pass of the loop body: the entries it appends for `item`, or the error it raises. */
  function ItemIssues(item: ExifItem): (r: Result<seq<string>, string>)
    ensures r.Err? <==> Faulty(item)
    ensures r.Ok? ==> (r.value == [] <==> !Flagged(item))
    ensures r.Ok? && Flagged(item) ==> r.value == [FlagMessage(item)]
  {
    if item.tag in IdentityTags then
      match item.value
      case Unprintable(e) => Err(e)
      case Val(t) => if Contains(t, "Unknown") then Ok([SuspiciousIssue(item.tag, t)]) else Ok([])
      case PyNone => Ok([])
    else if item.tag in TimestampTags && item.value.PyNone? then Ok([MissingTimestamp])
    else Ok([])
  }

  /** The state of the loop over the EXIF items: entries so far and, once an item raised, its error. */
  datatype Scan = Scan(issues: seq<string>, fault: Option<string>)

  /** The loop run over `items`, stopping at the first item that raises. */
  function ScanItems(items: seq<ExifItem>): Scan
    decreases |items|
  {
    if items == [] then Scan([], None)
    else
      var before := ScanItems(items[..|items| - 1]);
      if before.fault.Some? then before
      else match ItemIssues(items[|items| - 1])
        case Ok(found) => Scan(before.issues + found, None)
        case Err(e) => Scan(before.issues, Some(e))
  }

  /** Reference definition: the entries of the flagged items, in dictionary order. */
  function FlaggedIssues(items: seq<ExifItem>): seq<string> {
    if items == [] then []
    else (if Flagged(items[0]) then [FlagMessage(items[0])] else []) + FlaggedIssues(items[1..])
  }

  lemma {:induction false} FlaggedIssuesSnoc(items: seq<ExifItem>, item: ExifItem)
    ensures FlaggedIssues(items + [item]) ==
            FlaggedIssues(items) + (if Flagged(item) then [FlagMessage(item)] else [])
    decreases |items|
  {
    if items == [] {
      assert [item][1..] == [];
    } else {
      assert (items + [item])[1..] == items[1..] + [item];
      FlaggedIssuesSnoc(items[1..], item);
    }
  }

  /** Once an item has raised, the items after it change nothing. */
  lemma {:induction false} ScanFaultSticky(before: seq<ExifItem>, after: seq<ExifItem>)
    requires ScanItems(before).fault.Some?
    ensures ScanItems(before + after) == ScanItems(before)
    decreases |after|
  {
    if after == [] {
      assert before + after == before;
    } else {
      var init := after[..|after| - 1];
      ScanFaultSticky(before, init);
      assert before + after == (before + init) + [after[|after| - 1]];
      ScanSnoc(before + init, after[|after| - 1]);
    }
  }

  /** Without a faulty item the loop records exactly the flagged items' entries, in order. */
  lemma {:induction false} ScanMatchesFlagged(items: seq<ExifItem>)
    requires forall i :: 0 <= i < |items| ==> !Faulty(items[i])
    ensures ScanItems(items) == Scan(FlaggedIssues(items), None)
    decreases |items|
  {
    if items != [] {
      var init, last := items[..|items| - 1], items[|items| - 1];
      ScanMatchesFlagged(init);
      assert init + [last] == items;
      FlaggedIssuesSnoc(init, last);
    }
  }

  /** One more item: the loop state after `items + [item]` from the state after `items`. */
  lemma ScanSnoc(items: seq<ExifItem>, item: ExifItem)
    ensures ScanItems(items + [item]) ==
            var before := ScanItems(items);
            if before.fault.Some? then before
            else match ItemIssues(item)
              case Ok(found) => Scan(before.issues + found, None)
              case Err(e) => Scan(before.issues, Some(e))
  {
    var all := items + [item];
    assert all[..|all| - 1] == items;
  }

  /** The loop stops at the first faulty item, keeping the entries of the flagged items before it. */
  lemma ScanStopsAtFirstFault(before: seq<ExifItem>, item: ExifItem, after: seq<ExifItem>)
    requires forall j :: 0 <= j < |before| ==> !Faulty(before[j])
    requires Faulty(item)
    ensures ScanItems(before + [item] + after) == Scan(FlaggedIssues(before), Some(item.value.error))
  {
    ScanMatchesFlagged(before);
    ScanSnoc(before, item);
    ScanFaultSticky(before + [item], after);
  }

  /** `analyze_metadata_pil` as a value: the score and the suspicious fields. */
  function MetadataOf(read: ExifRead): (m: Metadata)
    ensures m.score in {0.2, 0.4, 0.6, 1.0}
    ensures m.score == 1.0 <==> m.issues == []
  {
    match read
    case ReadFails(e) => Metadata(0.2, [ErrorIssue(e)])
    case NoExif => Metadata(0.4, [NoExifIssue])
    case Exif(items) =>
      var scan := ScanItems(items);
      if scan.fault.Some? then Metadata(0.2, scan.issues + [ErrorIssue(scan.fault.value)])
      else Metadata(if |scan.issues| == 0 then 1.0 else 0.6, scan.issues)
  }

  /** The EXIF decision table, stated over the items rather than over the loop. */
  lemma MetadataDecisionTable(read: ExifRead)
    ensures read.ReadFails? ==> MetadataOf(read) == Metadata(0.2, [ErrorIssue(read.error)])
    ensures read.NoExif? ==> MetadataOf(read) == Metadata(0.4, [NoExifIssue])
    ensures read.Exif? && (forall i :: 0 <= i < |read.items| ==> !Faulty(read.items[i])) ==>
              var flagged := FlaggedIssues(read.items);
              MetadataOf(read) == Metadata(if flagged == [] then 1.0 else 0.6, flagged)
    ensures read.Exif? ==>
              forall i :: 0 <= i < |read.items| && Faulty(read.items[i]) &&
                          (forall j :: 0 <= j < i ==> !Faulty(read.items[j])) ==>
                MetadataOf(read) ==
                Metadata(0.2, FlaggedIssues(read.items[..i]) + [ErrorIssue(read.items[i].value.error)])
  {
    if read.Exif? {
      var items := read.items;
      if forall i :: 0 <= i < |items| ==> !Faulty(items[i]) {
        ScanMatchesFlagged(items);
      }
      forall i | 0 <= i < |items| && Faulty(items[i]) && (forall j :: 0 <= j < i ==> !Faulty(items[j]))
        ensures MetadataOf(read) ==
                Metadata(0.2, FlaggedIssues(items[..i]) + [ErrorIssue(items[i].value.error)])
      {
        assert items == items[..i] + [items[i]] + items[i + 1..];
        ScanStopsAtFirstFault(items[..i], items[i], items[i + 1..]);
      }
    }
  }

  /** `analyze_metadata_pil`: the loop appending to the suspicious fields, then the score. */
  method AnalyzeMetadataPil(read: ExifRead) returns (score: real, issues: seq<string>)
    ensures Metadata(score, issues) == MetadataOf(read)
  {
    issues := [];
    match read {
      case ReadFails(e) =>
        score := 0.2;
        issues := issues + [ErrorIssue(e)];
      case NoExif =>
        issues := issues + [NoExifIssue];
        score := 0.4;
      case Exif(items) =>
        var fault: Option<string> := None;
        var i := 0;
        while i < |items| && fault.None?
          invariant 0 <= i <= |items|
          invariant ScanItems(items[..i]) == Scan(issues, fault)
        {
          var item := items[i];
          assert items[..i + 1][..i] == items[..i];
          if item.tag in IdentityTags {
            match item.value {
              case Unprintable(e) => fault := Some(e);
              case Val(t) =>
                if Contains(t, "Unknown") {
                  issues := issues + [SuspiciousIssue(item.tag, t)];
                }
              case PyNone =>
            }
          }
          if fault.None? && item.tag in TimestampTags && item.value.PyNone? {
            issues := issues + [MissingTimestamp];
          }
          i := i + 1;
        }
        if fault.Some? {
          ScanFaultSticky(items[..i], items[i..]);
          assert items[..i] + items[i..] == items;
          score := 0.2;
          issues := issues + [ErrorIssue(fault.value)];
        } else {
          assert items[..i] == items;
          score := if |issues| == 0 then 1.0 else 0.6;
        }
    }
  }

  // ----------------------------------------------------------- analysers

  /** A statistic one of the numeric libraries produced, or the error it raised. */
  datatype Measured = Measured(value: real) | Raised(error: string)

  /** An analyser's `(score, reason)` pair. */
  datatype Analysis = Analysis(score: real, reason: string)

  /** Python's `min(a, b)`: `a` unless `b` is smaller. */
  function Min(a: real, b: real): real {
    if b < a then b else a
  }

  /** `perform_ela`: the mean brightened difference over 50, capped at 1.0; 0.2 when it raises. */
  function ElaScore(meanDiff: Measured): (score: real)
    ensures score <= 1.0
    ensures meanDiff.Raised? ==> score == 0.2
    ensures meanDiff.Measured? ==> score == 1.0 || score == meanDiff.value / 50.0
    ensures meanDiff.Measured? && meanDiff.value <= 50.0 ==> score == meanDiff.value / 50.0
    ensures meanDiff.Measured? && meanDiff.value >= 0.0 ==> score >= 0.0
  {
    match meanDiff
    case Measured(d) => Min(1.0, d / 50.0)
    case Raised(_) => 0.2
  }

  /** `prnu_analysis`: the residual's standard deviation over 10, capped at 1.0; 0.2 when it raises. */
  function NoiseAnalysis(residualStd: Measured): (a: Analysis)
    ensures a.score <= 1.0
    ensures residualStd.Raised? ==> a == Analysis(0.2, "Error in PRNU: " + residualStd.error)
    ensures residualStd.Measured? ==>
              && a.reason == "Noise residual heatmap generated"
              && (a.score == 1.0 || a.score == residualStd.value / 10.0)
              && (residualStd.value <= 10.0 ==> a.score == residualStd.value / 10.0)
              && (residualStd.value >= 0.0 ==> a.score >= 0.0)
  {
    match residualStd
    case Measured(s) => Analysis(Min(s / 10.0, 1.0), "Noise residual heatmap generated")
    case Raised(e) => Analysis(0.2, "Error in PRNU: " + e)
  }

  /** `gan_detection`: one minus the class-0 probability (no cap); 0.5 when it raises. */
  function GanAnalysis(probability: Measured): (a: Analysis)
    ensures probability.Raised? ==> a == Analysis(0.5, "GAN detection error: " + probability.error)
    ensures probability.Measured? ==>
              && a.reason == "Pretrained ResNet18 used (placeholder)"
              && a.score + probability.value == 1.0
    ensures probability.Measured? && 0.0 <= probability.value <= 1.0 ==> 0.0 <= a.score <= 1.0
  {
    match probability
    case Measured(p) => Analysis(1.0 - p, "Pretrained ResNet18 used (placeholder)")
    case Raised(e) => Analysis(0.5, "GAN detection error: " + e)
  }

  /** `visual_checks`: the grey-level standard deviation over 80, capped at 1.0; 0.4 when it raises. */
  function VisualAnalysis(grayStd: Measured): (a: Analysis)
    ensures a.score <= 1.0
    ensures grayStd.Raised? ==> a == Analysis(0.4, "Visual check error: " + grayStd.error)
    ensures grayStd.Measured? ==>
              && a.reason == "Std deviation indicates lighting/texture inconsistency"
              && (a.score == 1.0 || a.score == grayStd.value / 80.0)
              && (grayStd.value <= 80.0 ==> a.score == grayStd.value / 80.0)
              && (grayStd.value >= 0.0 ==> a.score >= 0.0)
  {
    match grayStd
    case Measured(s) => Analysis(Min(1.0, s / 80.0), "Std deviation indicates lighting/texture inconsistency")
    case Raised(e) => Analysis(0.4, "Visual check error: " + e)
  }

  // ---------------------------------------------------------- aggregation

  /** Everything the libraries report about one decoded image. */
  datatype Probe = Probe(
    exif: ExifRead,
    elaMeanDiff: Measured,
    residualStd: Measured,
    ganProbability: Measured,
    grayStd: Measured)

  /**
   * What the libraries guarantee of their statistics: means of absolute
   * differences and standard deviations are non-negative, and a softmax
   * probability lies in [0, 1].
   */
  predicate Plausible(p: Probe) {
    && (p.elaMeanDiff.Measured? ==> p.elaMeanDiff.value >= 0.0)
    && (p.residualStd.Measured? ==> p.residualStd.value >= 0.0)
    && (p.ganProbability.Measured? ==> 0.0 <= p.ganProbability.value <= 1.0)
    && (p.grayStd.Measured? ==> p.grayStd.value >= 0.0)
  }

  /** The list `[metadata, ela, noise, gan, visual]` of sector scores. */
  function SectorScores(p: Probe): (scores: seq<real>)
    ensures |scores| == 5
    ensures forall i :: 0 <= i < 5 && i != 3 ==> scores[i] <= 1.0
    ensures Plausible(p) ==> forall i :: 0 <= i < 5 ==> 0.0 <= scores[i] <= 1.0
  {
    [ MetadataOf(p.exif).score,
      ElaScore(p.elaMeanDiff),
      NoiseAnalysis(p.residualStd).score,
      GanAnalysis(p.ganProbability).score,
      VisualAnalysis(p.grayStd).score ]
  }

  function Sum(xs: seq<real>): real {
    if xs == [] then 0.0 else xs[0] + Sum(xs[1..])
  }

  /** `np.mean` of a non-empty list, over the reals. */
  function Mean(xs: seq<real>): real
    requires xs != []
  {
    Sum(xs) / (|xs| as real)
  }

  lemma {:induction false} SumBetween(xs: seq<real>, lo: real, hi: real)
    requires forall i :: 0 <= i < |xs| ==> lo <= xs[i] <= hi
    ensures (|xs| as real) * lo <= Sum(xs) <= (|xs| as real) * hi
    decreases |xs|
  {
    if xs != [] {
      SumBetween(xs[1..], lo, hi);
      var n := |xs[1..]| as real;
      assert (n + 1.0) * lo == n * lo + lo;
      assert (n + 1.0) * hi == n * hi + hi;
    }
  }

  /** A mean lies within any bounds that hold of every element. */
  lemma MeanBetween(xs: seq<real>, lo: real, hi: real)
    requires xs != []
    requires forall i :: 0 <= i < |xs| ==> lo <= xs[i] <= hi
    ensures lo <= Mean(xs) <= hi
  {
    SumBetween(xs, lo, hi);
    var n := |xs| as real;
    var m := Mean(xs);
    assert Sum(xs) == n * m;
  }

  /** With plausible statistics the ensemble score lies in [0, 1]. */
  lemma EnsembleInUnit(p: Probe)
    requires Plausible(p)
    ensures 0.0 <= Mean(SectorScores(p)) <= 1.0
  {
    MeanBetween(SectorScores(p), 0.0, 1.0);
  }

  // ------------------------------------------------------------- endpoint

  /** A sector of the summary. */
  datatype Sector = Sector(name: string, score: real, reason: string)

  /** The JSON body of a response to `POST /analyze`. */
  datatype Body =
    | ErrorBody(error: string)
    | Report(ensemble: real, overallLabel: string, sectors: seq<Sector>)

  /** The `image` part of the request, seen through what decoding it as an RGB image gives. */
  datatype ImagePart = Unreadable(error: string) | Readable(probe: Probe)

  const SectorNames := ["Metadata", "ELA", "Noise/PRNU", "GAN Detection", "Visual Checks"]
  const FakeLabel := "Fake/Synthetic"
  const RealLabel := "Real"

  /** Python's `sep.join(parts)`. */
  function Join(parts: seq<string>, sep: string): string {
    if parts == [] then ""
    else if |parts| == 1 then parts[0]
    else parts[0] + sep + Join(parts[1..], sep)
  }

  function MetadataReason(issues: seq<string>): string {
    if issues == [] then "OK" else Join(issues, ", ")
  }

  /** The `analyze` handler, over the request's uploaded files. */
  method Analyze(files: map<string, ImagePart>) returns (status: int, body: Body)
    ensures status == 200 <==> body.Report?
    ensures status != 200 ==> status == 400
    ensures "image" !in files ==> body == ErrorBody("No image file provided")
    ensures "image" in files && files["image"].Unreadable? ==>
              body == ErrorBody("Unable to open image: " + files["image"].error)
    ensures "image" in files && files["image"].Readable? ==>
              var p := files["image"].probe;
              && body.Report?
              && |body.sectors| == 5
              && (forall i :: 0 <= i < 5 ==>
                    body.sectors[i].name == SectorNames[i] && body.sectors[i].score == SectorScores(p)[i])
              && body.ensemble == Mean(SectorScores(p))
              && (body.overallLabel == FakeLabel <==> body.ensemble > 0.5)
              && (body.overallLabel == RealLabel <==> body.ensemble <= 0.5)
              && body.sectors[0].reason == MetadataReason(MetadataOf(p.exif).issues)
              && body.sectors[1].reason == "ELA diff analyzed"
              && body.sectors[2].reason == NoiseAnalysis(p.residualStd).reason
              && body.sectors[3].reason == GanAnalysis(p.ganProbability).reason
              && body.sectors[4].reason == VisualAnalysis(p.grayStd).reason
              && (Plausible(p) ==> 0.0 <= body.ensemble <= 1.0)
  {
    if "image" !in files {
      return 400, ErrorBody("No image file provided");
    }
    match files["image"] {
      case Unreadable(e) =>
        return 400, ErrorBody("Unable to open image: " + e);
      case Readable(p) =>
        var metadataScore, metadataIssues := AnalyzeMetadataPil(p.exif);
        var elaScore := ElaScore(p.elaMeanDiff);
        var noise := NoiseAnalysis(p.residualStd);
        var gan := GanAnalysis(p.ganProbability);
        var visual := VisualAnalysis(p.grayStd);
        var scores := [metadataScore, elaScore, noise.score, gan.score, visual.score];
        assert scores == SectorScores(p);
        var ensemble := Mean(scores);
        var overallLabel := if ensemble > 0.5 then FakeLabel else RealLabel;
        var summary := [
          Sector("Metadata", metadataScore, MetadataReason(metadataIssues)),
          Sector("ELA", elaScore, "ELA diff analyzed"),
          Sector("Noise/PRNU", noise.score, noise.reason),
          Sector("GAN Detection", gan.score, gan.reason),
          Sector("Visual Checks", visual.score, visual.reason)
        ];
        if Plausible(p) {
          EnsembleInUnit(p);
        }
        return 200, Report(ensemble, overallLabel, summary);
    }
  }

  // ------------------------------------------------------------ wire form

  function SectorJson(s: Sector): Json {
    JObj(map["sector" := JStr(s.name), "score" := JNum(s.score), "reason" := JStr(s.reason)])
  }

  /** `jsonify` of a response body. */
  function BodyJson(body: Body): Json {
    match body
    case ErrorBody(e) => JObj(map["error" := JStr(e)])
    case Report(ensemble, overallLabel, sectors) =>
      JObj(map[
        "ensemble_score" := JNum(ensemble),
        "overall_label" := JStr(overallLabel),
        "scores" := JArr(seq(|sectors|, i requires 0 <= i < |sectors| => SectorJson(sectors[i])))
      ])
  }
}
