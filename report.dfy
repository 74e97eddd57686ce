/**
 The report of `display_results`: a summary block (face count and the faces
 flagged for human verification) followed by one detail block per face,
 each with its race and gender scores and at most one close-call warning.
 The text is modelled as structured lines rather than formatted strings.
 */
module Report {
  import opened FaceData
  import opened SeqFacts
  import opened CloseCall

  datatype Category = Race | Gender

  /** One logical line (or fixed block) of the inserted report text. */
  datatype Line =
    | NoFacesDetected
    | SummaryHeader
    | TotalFaces(count: nat)
    | FacesRequiringVerification(count: nat)
    | FaceNumbers(numbers: seq<nat>)
    | AllHighConfidence
    | FaceHeader(number: nat)
    | AnalysisHeader(category: Category)
    | Dominant(name: string)
    | ConfidenceScoresHeader
    | Score(name: string, score: real)
    /** The "Close call detected" block: both contenders, the gap and the recommendation. */
    | CloseCallWarning(first: Entry, second: Entry, difference: real)

  /** One score line per entry, in the given order. */
  function ScoreLines(ranked: seq<Entry>): (lines: seq<Line>)
    ensures |lines| == |ranked|
    ensures forall i :: 0 <= i < |ranked| ==> lines[i] == Score(ranked[i].name, ranked[i].score)
  {
    if ranked == [] then []
    else ScoreLines(ranked[..|ranked| - 1]) + [Score(ranked[|ranked| - 1].name, ranked[|ranked| - 1].score)]
  }

  /** The analysis of one category: header, dominant hint, and the scores best first. */
  function CategoryLines(category: Category, dist: Distribution, hint: Option<string>): seq<Line> {
    [AnalysisHeader(category), Dominant(HintOrUnknown(hint)), ConfidenceScoresHeader]
      + ScoreLines(SortDesc(dist))
  }

  /**
   The warning blocks of one face, given its race and gender verdicts: the
   race warning when race is close, otherwise the gender warning when gender
   is close (the `if`/`elif` of the analyser).
   */
  function Warnings(race: Verdict, gender: Verdict): (w: seq<Line>)
    ensures |w| <= 1
    ensures |w| == 1 <==> race.Close? || gender.Close?
    ensures race.Close? ==> w == [CloseCallWarning(race.first, race.second, race.difference)]
    ensures !race.Close? && gender.Close? ==> w == [CloseCallWarning(gender.first, gender.second, gender.difference)]
  {
    if race.Close? then [CloseCallWarning(race.first, race.second, race.difference)]
    else if gender.Close? then [CloseCallWarning(gender.first, gender.second, gender.difference)]
    else []
  }

  /** A face needs human verification when its race or its gender is a close call. */
  predicate NeedsVerification(face: FaceRecord, threshold: real) {
    CheckCloseCall(face.race, threshold).Close? || CheckCloseCall(face.gender, threshold).Close?
  }

  /** The detail block of face number `n`. */
  function FaceBlock(face: FaceRecord, n: nat, threshold: real): seq<Line> {
    [FaceHeader(n)]
      + CategoryLines(Race, face.race, face.dominantRace)
      + CategoryLines(Gender, face.gender, face.dominantGender)
      + Warnings(CheckCloseCall(face.race, threshold), CheckCloseCall(face.gender, threshold))
  }

  /** The detail blocks of all faces, numbered from 1 in detection order. */
  function Details(faces: seq<FaceRecord>, threshold: real): seq<Line> {
    if faces == [] then []
    else
      var n := |faces|;
      Details(faces[..n - 1], threshold) + FaceBlock(faces[n - 1], n, threshold)
  }

  /**
   `faces_needing_verification`: the numbers of the flagged faces, in
   increasing order, each between 1 and the number of faces.
   */
  function Flagged(faces: seq<FaceRecord>, threshold: real): (flagged: seq<nat>)
    ensures |flagged| <= |faces|
    ensures forall i :: 0 <= i < |flagged| ==> 1 <= flagged[i] <= |faces|
    ensures forall i, j :: 0 <= i < j < |flagged| ==> flagged[i] < flagged[j]
  {
    if faces == [] then []
    else
      var n := |faces|;
      Flagged(faces[..n - 1], threshold)
        + (if NeedsVerification(faces[n - 1], threshold) then [n] else [])
  }

  /** The summary block for `total` faces of which `flagged` need verification. */
  function Summary(total: nat, flagged: seq<nat>): (lines: seq<Line>)
    ensures |lines| == if flagged != [] then 4 else 3
    ensures lines[0] == SummaryHeader && lines[1] == TotalFaces(total)
    ensures flagged == [] ==> lines[2] == AllHighConfidence
    ensures flagged != [] ==> lines[2] == FacesRequiringVerification(|flagged|) && lines[3] == FaceNumbers(flagged)
  {
    [SummaryHeader, TotalFaces(total)]
      + (if flagged != [] then [FacesRequiringVerification(|flagged|), FaceNumbers(flagged)]
         else [AllHighConfidence])
  }

  /**
   Everything `display_results` inserts: a single "no faces" line for an empty
   result list; otherwise the summary, then the detail blocks.
   */
  function ReportLines(faces: seq<FaceRecord>, threshold: real): (lines: seq<Line>)
    ensures faces == [] <==> lines == [NoFacesDetected]
  {
    if faces == [] then [NoFacesDetected]
    else Summary(|faces|, Flagged(faces, threshold)) + Details(faces, threshold)
  }

  /**
   The report of a non-empty result list opens with the summary (the face
   count, then either the flagged face numbers or the all-clear line) and
   continues with the block of face number 1.
   */
  lemma ReportOpening(faces: seq<FaceRecord>, threshold: real)
    requires faces != []
    ensures var lines := ReportLines(faces, threshold);
      var flagged := Flagged(faces, threshold);
      var detailStart := if flagged != [] then 4 else 3;
      && |lines| > detailStart
      && lines[0] == SummaryHeader
      && lines[1] == TotalFaces(|faces|)
      && (flagged == [] ==> lines[2] == AllHighConfidence)
      && (flagged != [] ==>
            lines[2] == FacesRequiringVerification(|flagged|) && lines[3] == FaceNumbers(flagged))
      && lines[detailStart] == FaceHeader(1)
  {
    var flagged := Flagged(faces, threshold);
    var summary := Summary(|faces|, flagged);
    var details := Details(faces, threshold);
    DetailsStart(faces, threshold);
    assert ReportLines(faces, threshold) == summary + details;
    ConcatAt(summary, details, 0);
    ConcatAt(summary, details, 1);
    ConcatAt(summary, details, 2);
    if flagged != [] {
      ConcatAt(summary, details, 3);
    }
    ConcatAt(summary, details, |summary|);
  }

  /** The detail blocks start with the block of face number 1. */
  lemma {:induction false} DetailsStart(faces: seq<FaceRecord>, threshold: real)
    requires faces != []
    ensures |Details(faces, threshold)| > 0 && Details(faces, threshold)[0] == FaceHeader(1)
  {
    var n := |faces|;
    if n > 1 {
      var pre := faces[..n - 1];
      DetailsStart(pre, threshold);
    }
  }

  /** The details of a prefix of the faces are a prefix of the details. */
  lemma {:induction false} DetailsPrefix(faces: seq<FaceRecord>, i: nat, threshold: real)
    requires i <= |faces|
    ensures |Details(faces[..i], threshold)| <= |Details(faces, threshold)|
    ensures Details(faces[..i], threshold) == Details(faces, threshold)[..|Details(faces[..i], threshold)|]
  {
    if i < |faces| {
      var pre := faces[..|faces| - 1];
      assert faces[..i] == pre[..i];
      DetailsPrefix(pre, i, threshold);
      var earlier := Details(pre, threshold);
      assert Details(faces, threshold) == earlier + FaceBlock(faces[|faces| - 1], |faces|, threshold);
      PrefixOfConcat(earlier, FaceBlock(faces[|faces| - 1], |faces|, threshold), |Details(faces[..i], threshold)|);
    } else {
      assert faces[..i] == faces;
    }
  }

  /**
   Numbering: the detail block of face `j` (0-based) is headed `FACE #j+1`
   and follows the blocks of all faces before it, the same numbering the
   annotation layout uses.
   */
  lemma DetailsFace(faces: seq<FaceRecord>, j: nat, threshold: real)
    requires j < |faces|
    ensures var lo := |Details(faces[..j], threshold)|;
            var hi := |Details(faces[..j + 1], threshold)|;
            lo <= hi <= |Details(faces, threshold)| &&
            Details(faces, threshold)[lo..hi] == FaceBlock(faces[j], j + 1, threshold)
  {
    var prefix := faces[..j + 1];
    assert prefix[..j] == faces[..j];
    var lo := |Details(faces[..j], threshold)|;
    assert Details(prefix, threshold) == Details(faces[..j], threshold) + FaceBlock(faces[j], j + 1, threshold);
    DetailsPrefix(faces, j + 1, threshold);
  }

  /** A face number is flagged exactly when that face's race or gender is a close call. */
  lemma {:induction false} FlaggedIff(faces: seq<FaceRecord>, threshold: real, n: nat)
    ensures n in Flagged(faces, threshold) <==>
      1 <= n <= |faces| && NeedsVerification(faces[n - 1], threshold)
  {
    if faces != [] {
      var pre := faces[..|faces| - 1];
      FlaggedIff(pre, threshold, n);
      if 1 <= n < |faces| {
        assert faces[n - 1] == pre[n - 1];
      }
    }
  }

  /**
   Only one warning block when both categories are close: the race warning;
   the gender close call is then not reported in the face's detail block.
   */
  lemma BothCloseOnlyRaceWarning(face: FaceRecord, n: nat, threshold: real)
    requires CheckCloseCall(face.race, threshold).Close?
    requires CheckCloseCall(face.gender, threshold).Close?
    ensures var race := CheckCloseCall(face.race, threshold);
            var block := FaceBlock(face, n, threshold);
            block[|block| - 1] == CloseCallWarning(race.first, race.second, race.difference)
            && forall i :: 0 <= i < |block| - 1 ==> !block[i].CloseCallWarning?
  {
    WarningIffFlagged(face, n, threshold);
  }

  /**
   A face's detail block ends with a warning exactly when the face is
   flagged, and no other line of it is a warning.
   */
  lemma WarningIffFlagged(face: FaceRecord, n: nat, threshold: real)
    ensures var block := FaceBlock(face, n, threshold);
            |block| > 0
            && (block[|block| - 1].CloseCallWarning? <==> NeedsVerification(face, threshold))
            && forall i :: 0 <= i < |block| - 1 ==> !block[i].CloseCallWarning?
  {
    var race := CategoryLines(Race, face.race, face.dominantRace);
    var gender := CategoryLines(Gender, face.gender, face.dominantGender);
    assert forall i :: 0 <= i < |race| ==> !race[i].CloseCallWarning?;
    assert forall i :: 0 <= i < |gender| ==> !gender[i].CloseCallWarning?;
  }

  /**
   The score lines of a distribution list every entry once, highest score
   first, equal scores in their original order.
   */
  lemma RankedScores(dist: Distribution)
    ensures var ranked := SortDesc(dist);
            var scores := ScoreLines(ranked);
            && |scores| == |dist|
            && multiset(ranked) == multiset(dist)
            && (forall i :: 0 <= i < |scores| ==> scores[i] == Score(ranked[i].name, ranked[i].score))
            && (forall i, j :: 0 <= i < j < |scores| ==> scores[i].score >= scores[j].score)
  {
    SortDescPermutes(dist);
  }

  /**
   `display_results`: walks the faces numbering them from 1, collects each
   face's detail block and the numbers of the faces needing verification,
   then inserts the summary followed by the details. An empty result list
   inserts only "no faces detected".
   */
  method DisplayResults(results: seq<FaceRecord>, threshold: real) returns (inserted: seq<Line>)
    ensures inserted == ReportLines(results, threshold)
  {
    if results == [] {
      inserted := [NoFacesDetected];
      return;
    }

    var faceCount, facesNeedingVerification, resultsContent := CollectDetails(results, threshold);

    var summaryContent := [SummaryHeader, TotalFaces(faceCount)];
    if facesNeedingVerification != [] {
      summaryContent := summaryContent
        + [FacesRequiringVerification(|facesNeedingVerification|), FaceNumbers(facesNeedingVerification)];
    } else {
      summaryContent := summaryContent + [AllHighConfidence];
    }
    assert summaryContent == Summary(|results|, Flagged(results, threshold));
    inserted := summaryContent + resultsContent;
  }

  /**
   The loop of `display_results`: numbers the faces from 1, appends each
   face's detail block and collects the numbers of the flagged faces.
   */
  method CollectDetails(results: seq<FaceRecord>, threshold: real)
    returns (faceCount: nat, facesNeedingVerification: seq<nat>, resultsContent: seq<Line>)
    ensures faceCount == |results|
    ensures facesNeedingVerification == Flagged(results, threshold)
    ensures resultsContent == Details(results, threshold)
  {
    faceCount := 0;
    facesNeedingVerification := [];
    resultsContent := [];

    for i := 0 to |results|
      invariant faceCount == i
      invariant facesNeedingVerification == Flagged(results[..i], threshold)
      invariant resultsContent == Details(results[..i], threshold)
    {
      faceCount := faceCount + 1;
      var block, needsVerification := FaceDetail(results[i], faceCount, threshold);
      resultsContent := resultsContent + block;

      if needsVerification {
        facesNeedingVerification := facesNeedingVerification + [faceCount];
      }
      NextFace(results, i, threshold);
    }
    assert results[..|results|] == results;
  }

  /** Adding face `i` to the prefix before it appends its block, and its number when flagged. */
  lemma NextFace(faces: seq<FaceRecord>, i: nat, threshold: real)
    requires i < |faces|
    ensures Details(faces[..i + 1], threshold) == Details(faces[..i], threshold) + FaceBlock(faces[i], i + 1, threshold)
    ensures Flagged(faces[..i + 1], threshold)
      == Flagged(faces[..i], threshold) + (if NeedsVerification(faces[i], threshold) then [i + 1] else [])
  {
    var prefix := faces[..i + 1];
    assert prefix[..i] == faces[..i] && prefix[i] == faces[i];
  }

  /**
   The detail block of one face and whether it needs verification: both
   analyses, then the race warning if race is close, else the gender
   warning if gender is close.
   */
  method FaceDetail(face: FaceRecord, faceCount: nat, threshold: real) returns (block: seq<Line>, needsVerification: bool)
    ensures block == FaceBlock(face, faceCount, threshold)
    ensures needsVerification == NeedsVerification(face, threshold)
  {
    block := [FaceHeader(faceCount)];
    needsVerification := false;

    block := AppendCategory(block, Race, face.race, face.dominantRace);
    block := AppendCategory(block, Gender, face.gender, face.dominantGender);
    ghost var analyses := block;

    var raceVerdict := CheckCloseCall(face.race, threshold);
    var genderVerdict := CheckCloseCall(face.gender, threshold);
    if raceVerdict.Close? {
      needsVerification := true;
      block := block + [CloseCallWarning(raceVerdict.first, raceVerdict.second, raceVerdict.difference)];
    } else if genderVerdict.Close? {
      needsVerification := true;
      block := block + [CloseCallWarning(genderVerdict.first, genderVerdict.second, genderVerdict.difference)];
    }
    assert block == analyses + Warnings(raceVerdict, genderVerdict);
  }

  /** Appends the analysis of one category: header, dominant hint, then the sorted scores. */
  method AppendCategory(lines: seq<Line>, category: Category, dist: Distribution, hint: Option<string>)
    returns (out: seq<Line>)
    ensures out == lines + CategoryLines(category, dist, hint)
  {
    out := lines + [AnalysisHeader(category), Dominant(HintOrUnknown(hint)), ConfidenceScoresHeader];
    out := AppendScores(out, SortDesc(dist));
  }

  /** Appends one score line per ranked entry, as the loop over the sorted items does. */
  method AppendScores(lines: seq<Line>, ranked: seq<Entry>) returns (out: seq<Line>)
    ensures out == lines + ScoreLines(ranked)
  {
    out := lines;
    for k := 0 to |ranked|
      invariant out == lines + ScoreLines(ranked[..k])
    {
      out := out + [Score(ranked[k].name, ranked[k].score)];
      assert ranked[..k + 1][..k] == ranked[..k];
    }
    assert ranked[..|ranked|] == ranked;
  }
}
