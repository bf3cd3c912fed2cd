/**
  The analysis record the report screens display, the two user personas,
  and the two fixed analyses the front end falls back to. The normal-user
  analysis is written out identically in Report.tsx, Slide.tsx and api.ts,
  and the journalist analysis identically in Report.tsx and api.ts; each is
  defined once here.
*/
module Analysis {
  import opened Js

  /** The two personas: a general reader and a journalist. */
  datatype UserType = Normal | Journalist

  /** The string the source uses for each persona. */
  function UserTypeName(t: UserType): (name: string)
    ensures name == "normal" <==> t == Normal
    ensures name == "journalist" <==> t == Journalist
  {
    match t
    case Normal => "normal"
    case Journalist => "journalist"
  }

  datatype BiasSentimentReport = BiasSentimentReport(
    sentimentDistribution: seq<string>,
    biasClassification: string)

  datatype ModelScore = ModelScore(
    confidenceScore: int,
    keyFeatures: string)

  /** The analysis response; field names follow the source's keys
      (including its spellings `reliablity` and `manupulation`). */
  datatype AnalysisResponse = AnalysisResponse(
    authorCredScore: int,
    sourceReliablityScore: int,
    citations: seq<string>,
    biasSentimentReport: BiasSentimentReport,
    evidenceBasedContradictions: string,
    manupulationTechniques: seq<string>,
    modelScore: ModelScore,
    generalOverview: string,
    toolsUsed: seq<string>)

  /** The simplified analysis shown to general readers. */
  const NormalAnalysis: AnalysisResponse := AnalysisResponse(
    75,
    68,
    [ "Climate Change 2023: Synthesis Report. IPCC, 2023.",
      "Global Economic Impact of Climate Change. World Bank, 2022.",
      "McKinsey Global Institute. Climate risk and response in Asia. 2023." ],
    BiasSentimentReport(["Neutral", "Concern"], "Moderate Left-leaning"),
    "The article presents strong data on climate impacts but may underestimate technological solutions that could mitigate some negative effects.",
    [ "Cherry-picking of data points",
      "Appeal to fear scenarios" ],
    ModelScore(82, "High-quality scientific citations and transparent methodology, but limited perspective on solutions."),
    "This analysis shows the content has strong factual grounding with credible sources, though it shows a moderate bias toward emphasizing negative impacts while underemphasizing adaptive solutions.",
    ["Sentiment Analysis", "Bias Detection", "Fact Verification"])

  /** The detailed analysis shown to journalists. */
  const JournalistAnalysis: AnalysisResponse := AnalysisResponse(
    75,
    68,
    [ "Climate Change 2023: Synthesis Report. IPCC, 2023. https://www.ipcc.ch/report/ar6/syr/",
      "Global Economic Impact of Climate Change. World Bank, 2022. https://www.worldbank.org/climate-report",
      "McKinsey Global Institute. Climate risk and response in Asia. 2023." ],
    BiasSentimentReport(["Neutral", "Concern", "Urgency"], "Moderate Left-leaning"),
    "While the article presents compelling data on climate impacts, it understates the role of technological innovation in mitigation efforts. Recent studies show renewable energy costs have dropped 70% faster than predicted, which contradicts the pessimistic timeline presented.",
    [ "Cherry-picking of data points",
      "Appeal to fear through catastrophic scenarios",
      "False dichotomy between economic growth and environmental protection",
      "Selective citation of studies" ],
    ModelScore(82, "High-quality scientific citations, peer-reviewed sources, transparent methodology, but limited perspective on technological solutions and economic adaptation strategies."),
    "This analysis examines claims about climate change impacts on the global economy. The content demonstrates strong factual grounding with credible scientific sources, though it shows a moderate bias toward emphasizing negative impacts while underemphasizing adaptive capacity and technological solutions. The author's credentials are solid, and the source reliability is above average.",
    ["Sentiment Analysis", "Bias Detection", "Fact Verification", "Source Credibility Assessment", "Citation Analysis"])

  /** The record as the JavaScript object literal the source writes. */
  function ToJson(a: AnalysisResponse): (v: Value)
    ensures v.Obj? && Truthy(v)
  {
    Obj([
      ("author_cred_score", Num(a.authorCredScore)),
      ("source_reliablity_score", Num(a.sourceReliablityScore)),
      ("citations", StrArr(a.citations)),
      ("Bias_sentiment_report", Obj([
        ("sentiment_distribution", StrArr(a.biasSentimentReport.sentimentDistribution)),
        ("bias_classification", Str(a.biasSentimentReport.biasClassification))])),
      ("evidence_based_contradictions", Str(a.evidenceBasedContradictions)),
      ("manupulation_techniques", StrArr(a.manupulationTechniques)),
      ("Model_score", Obj([
        ("Confidence_score", Num(a.modelScore.confidenceScore)),
        ("Key_features_influencing_decision", Str(a.modelScore.keyFeatures))])),
      ("general_overview", Str(a.generalOverview)),
      ("tools_used", StrArr(a.toolsUsed))])
  }

  /** The figures both fixtures share, and the list lengths that tell them apart. */
  lemma FixtureFigures()
    ensures NormalAnalysis.authorCredScore == 75 == JournalistAnalysis.authorCredScore
    ensures NormalAnalysis.sourceReliablityScore == 68 == JournalistAnalysis.sourceReliablityScore
    ensures NormalAnalysis.modelScore.confidenceScore == 82 == JournalistAnalysis.modelScore.confidenceScore
    ensures |NormalAnalysis.biasSentimentReport.sentimentDistribution| == 2
    ensures |NormalAnalysis.manupulationTechniques| == 2
    ensures |NormalAnalysis.toolsUsed| == 3
    ensures |JournalistAnalysis.biasSentimentReport.sentimentDistribution| == 3
    ensures |JournalistAnalysis.manupulationTechniques| == 4
    ensures |JournalistAnalysis.toolsUsed| == 5
    ensures NormalAnalysis != JournalistAnalysis
  {
  }
}
