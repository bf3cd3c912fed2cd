/**
  The display rules of the report screen: which fixed analysis it shows,
  the colour of the bias label, the three colour bands of the scores, the
  rounded overall score, the shortened key-features text, the numbered
  citations and the summary counters.
*/
module Report {
  import opened Basics
  import opened Js
  import opened Analysis

  // ---------------------------------------------------------------------------
  // Data selection
  // ---------------------------------------------------------------------------

  /** The analysis the screen displays. The `userType` prop is optional and
      defaults to "normal"; only "journalist" selects the detailed data. */
  function SelectData(userType: Option<UserType>): (d: AnalysisResponse)
    ensures d == JournalistAnalysis <==> userType == Some(Journalist)
    ensures d == NormalAnalysis <==> userType != Some(Journalist)
  {
    FixtureFigures();
    var t := match userType case Some(u) => u case None => UserType.Normal;
    if t == Journalist then JournalistAnalysis else NormalAnalysis
  }

  // ---------------------------------------------------------------------------
  // Bias label colour
  // ---------------------------------------------------------------------------

  const LeftColour := "#4F46E5"
  const RightColour := "#DC2626"
  const NeutralColour := "#059669"
  const DefaultBiasColour := "#6B7280"

  /** The badge colour for a bias classification, chosen by the first of
      "left", "right", "neutral" that occurs in the lower-cased label. */
  function BiasColor(bias: string): (colour: string)
    ensures colour in {LeftColour, RightColour, NeutralColour, DefaultBiasColour}
  {
    if Contains(Lower(bias), "left") then LeftColour
    else if Contains(Lower(bias), "right") then RightColour
    else if Contains(Lower(bias), "neutral") then NeutralColour
    else DefaultBiasColour
  }

  /** Each colour names exactly the case of the ordered test that chose it:
      "left" wins over "right" and "neutral", "right" over "neutral". */
  lemma BiasColorCases(bias: string)
    ensures BiasColor(bias) == LeftColour <==> Contains(Lower(bias), "left")
    ensures BiasColor(bias) == RightColour <==>
      !Contains(Lower(bias), "left") && Contains(Lower(bias), "right")
    ensures BiasColor(bias) == NeutralColour <==>
      !Contains(Lower(bias), "left") && !Contains(Lower(bias), "right") && Contains(Lower(bias), "neutral")
    ensures BiasColor(bias) == DefaultBiasColour <==>
      !Contains(Lower(bias), "left") && !Contains(Lower(bias), "right") && !Contains(Lower(bias), "neutral")
  {
  }

  /** The colour does not depend on letter case: a label and its lower-case
      form get the same colour. */
  lemma BiasColorCaseInsensitive(bias: string)
    ensures BiasColor(Lower(bias)) == BiasColor(bias)
  {
    LowerIdempotent(bias);
  }

  /** A label naming both directions gets the left colour. */
  lemma BiasColorLeftFirst(bias: string)
    requires Contains(Lower(bias), "left") && Contains(Lower(bias), "right")
    ensures BiasColor(bias) == LeftColour
  {
  }

  // ---------------------------------------------------------------------------
  // Score bands
  // ---------------------------------------------------------------------------

  /** The three colour bands used for the author, source and confidence scores. */
  datatype Band = Green | Orange | Red

  function ScoreBand(score: int): (band: Band)
    ensures band == Green <==> score >= 70
    ensures band == Orange <==> 40 <= score < 70
    ensures band == Red <==> score < 40
  {
    if score >= 70 then Green else if score >= 40 then Orange else Red
  }

  function BandColour(band: Band): string {
    match band
    case Green => "#46E556"
    case Orange => "#FFA500"
    case Red => "#FF4444"
  }

  /** The colour of a score's number (and of the confidence bar). */
  function ScoreColour(score: int): (colour: string)
    ensures colour == "#46E556" <==> score >= 70
    ensures colour == "#FFA500" <==> 40 <= score < 70
    ensures colour == "#FF4444" <==> score < 40
  {
    BandColour(ScoreBand(score))
  }

  function BandRank(band: Band): nat {
    match band
    case Red => 0
    case Orange => 1
    case Green => 2
  }

  /** A higher score never falls into a worse band. */
  lemma ScoreBandMonotone(s: int, t: int)
    requires s <= t
    ensures BandRank(ScoreBand(s)) <= BandRank(ScoreBand(t))
  {
  }

  // ---------------------------------------------------------------------------
  // Overall score
  // ---------------------------------------------------------------------------

  /** Math.round: the greatest integer not above x + 1/2, so halves round up. */
  function MathRound(x: real): (r: int)
    ensures r as real <= x + 0.5 < r as real + 1.0
  {
    (x + 0.5).Floor
  }

  /** `Math.round((author + source) / 2)`: the mean of the two scores,
      rounded to the nearest integer with halves rounded up. */
  function OverallScore(author: int, source: int): (r: int)
    ensures author + source <= 2 * r <= author + source + 1
  {
    MathRound((author + source) as real / 2.0)
  }

  /** On integers the rounded mean is plain integer division. */
  lemma OverallScoreIntegerForm(author: nat, source: nat)
    ensures OverallScore(author, source) == (author + source + 1) / 2
  {
  }

  /** The overall score lies between the two scores it averages. */
  lemma OverallScoreBetween(author: int, source: int)
    ensures Min(author, source) <= OverallScore(author, source) <= Max(author, source)
  {
  }

  // ---------------------------------------------------------------------------
  // Key features text
  // ---------------------------------------------------------------------------

  const KeyFeaturesLimit: nat := 100
  const Ellipsis := "..."

  /** Text longer than the limit is cut to its first 100 characters followed
      by "..."; shorter text is shown as is. */
  function TruncateKeyFeatures(text: string): (shown: string)
    ensures |text| <= KeyFeaturesLimit ==> shown == text
    ensures |text| > KeyFeaturesLimit ==>
      |shown| == KeyFeaturesLimit + 3 && shown[..KeyFeaturesLimit] == text[..KeyFeaturesLimit]
      && shown[KeyFeaturesLimit..] == Ellipsis
  {
    if |text| > KeyFeaturesLimit then text[..KeyFeaturesLimit] + Ellipsis else text
  }

  /** The shown text is never longer than 103 characters, and shortening it
      again changes nothing. */
  lemma TruncateKeyFeaturesIdempotent(text: string)
    ensures |TruncateKeyFeatures(text)| <= KeyFeaturesLimit + 3
    ensures TruncateKeyFeatures(TruncateKeyFeatures(text)) == TruncateKeyFeatures(text)
  {
    var shown := TruncateKeyFeatures(text);
    if |text| > KeyFeaturesLimit {
      assert shown[..KeyFeaturesLimit] + Ellipsis == shown;
    }
  }

  // ---------------------------------------------------------------------------
  // Citations and summary counters
  // ---------------------------------------------------------------------------

  datatype NumberedCitation = NumberedCitation(number: nat, text: string)

  /** Numbers the citations consecutively starting at `first`. */
  function NumberFrom(citations: seq<string>, first: nat): (r: seq<NumberedCitation>)
    ensures |r| == |citations|
    ensures forall i :: 0 <= i < |r| ==> r[i] == NumberedCitation(first + i, citations[i])
    decreases |citations|
  {
    if citations == [] then []
    else [NumberedCitation(first, citations[0])] + NumberFrom(citations[1..], first + 1)
  }

  /** The citation list as rendered: each entry labelled `index + 1`. */
  function NumberCitations(citations: seq<string>): seq<NumberedCitation> {
    NumberFrom(citations, 1)
  }

  function Texts(numbered: seq<NumberedCitation>): (r: seq<string>)
    ensures |r| == |numbered|
    ensures forall i :: 0 <= i < |r| ==> r[i] == numbered[i].text
    decreases |numbered|
  {
    if numbered == [] then [] else [numbered[0].text] + Texts(numbered[1..])
  }

  /** Numbering keeps every citation in list order and labels them 1..n. */
  lemma NumberCitationsFaithful(citations: seq<string>)
    ensures Texts(NumberCitations(citations)) == citations
    ensures forall i :: 0 <= i < |citations| ==> NumberCitations(citations)[i].number == i + 1
    ensures forall i, j :: 0 <= i < j < |citations| ==>
      NumberCitations(citations)[i].number < NumberCitations(citations)[j].number
  {
  }

  /** The three counters of the summary card. */
  datatype Summary = Summary(citations: nat, toolsUsed: nat, issues: nat)

  function Summarise(d: AnalysisResponse): (s: Summary)
    ensures s.citations == |d.citations|
    ensures s.toolsUsed == |d.toolsUsed|
    ensures s.issues == |d.manupulationTechniques|
  {
    Summary(|d.citations|, |d.toolsUsed|, |d.manupulationTechniques|)
  }

  /** The citations counter equals the number on the last listed citation. */
  lemma CitationCounterMatchesNumbering(d: AnalysisResponse)
    requires d.citations != []
    ensures NumberCitations(d.citations)[|d.citations| - 1].number == Summarise(d).citations
  {
  }

  // ---------------------------------------------------------------------------
  // The rendered figures
  // ---------------------------------------------------------------------------

  /** Everything on the report screen that is computed rather than copied. */
  datatype ReportFigures = ReportFigures(
    overallScore: int,
    authorColour: string,
    sourceColour: string,
    confidenceColour: string,
    biasColour: string,
    keyFeatures: string,
    citations: seq<NumberedCitation>,
    summary: Summary)

  function Figures(userType: Option<UserType>): (f: ReportFigures)
    ensures var d := SelectData(userType);
      && d.authorCredScore + d.sourceReliablityScore <= 2 * f.overallScore
      && 2 * f.overallScore <= d.authorCredScore + d.sourceReliablityScore + 1
      && |f.citations| == f.summary.citations == |d.citations|
      && |f.keyFeatures| <= KeyFeaturesLimit + 3
    ensures var d := SelectData(userType);
      && f.authorColour == ScoreColour(d.authorCredScore)
      && f.sourceColour == ScoreColour(d.sourceReliablityScore)
      && f.confidenceColour == ScoreColour(d.modelScore.confidenceScore)
      && f.biasColour == BiasColor(d.biasSentimentReport.biasClassification)
      && f.keyFeatures == TruncateKeyFeatures(d.modelScore.keyFeatures)
    ensures var d := SelectData(userType);
      && Texts(f.citations) == d.citations
      && (forall i :: 0 <= i < |f.citations| ==> f.citations[i].number == i + 1)
      && f.summary.toolsUsed == |d.toolsUsed| && f.summary.issues == |d.manupulationTechniques|
  {
    var d := SelectData(userType);
    TruncateKeyFeaturesIdempotent(d.modelScore.keyFeatures);
    NumberCitationsFaithful(d.citations);
    ReportFigures(
      OverallScore(d.authorCredScore, d.sourceReliablityScore),
      ScoreColour(d.authorCredScore),
      ScoreColour(d.sourceReliablityScore),
      ScoreColour(d.modelScore.confidenceScore),
      BiasColor(d.biasSentimentReport.biasClassification),
      TruncateKeyFeatures(d.modelScore.keyFeatures),
      NumberCitations(d.citations),
      Summarise(d))
  }

  /** The lower-cased fixture label has "left" at index 9. */
  lemma FixtureLabelHasLeft()
    ensures OccursAt(Lower("Moderate Left-leaning"), "left", 9)
  {
    var name := "Moderate Left-leaning";
    var lower := Lower(name);
    assert lower[9] == LowerChar(name[9]) == 'l';
    assert lower[10] == LowerChar(name[10]) == 'e';
    assert lower[11] == LowerChar(name[11]) == 'f';
    assert lower[12] == LowerChar(name[12]) == 't';
  }

  /** "Moderate Left-leaning" gets the left colour. */
  lemma FixtureBiasIsLeft()
    ensures BiasColor("Moderate Left-leaning") == LeftColour
  {
    FixtureLabelHasLeft();
    assert Contains(Lower("Moderate Left-leaning"), "left");
  }

  /** What a general reader sees: overall 72 (71.5 rounded up), a green
      author score, an orange source score, a green confidence, the left
      colour, the key features uncut at exactly 100 characters, and the
      counters 3 citations, 3 tools, 2 issues. */
  lemma NormalReportFigures()
    ensures var f := Figures(Some(UserType.Normal));
      && f.overallScore == 72
      && f.authorColour == "#46E556" && f.sourceColour == "#FFA500"
      && f.confidenceColour == "#46E556"
      && f.biasColour == LeftColour
      && f.keyFeatures == NormalAnalysis.modelScore.keyFeatures
      && f.summary == Summary(3, 3, 2)
  {
    FixtureBiasIsLeft();
  }

  /** What a journalist sees: the same scores and colours, the key features
      cut to 103 characters, and the counters 3 citations, 5 tools, 4 issues. */
  lemma JournalistReportFigures()
    ensures var f := Figures(Some(Journalist));
      && f.overallScore == 72
      && f.biasColour == LeftColour
      && |f.keyFeatures| == 103
      && f.keyFeatures[100..] == Ellipsis
      && f.summary == Summary(3, 5, 4)
  {
    FixtureBiasIsLeft();
  }
}
