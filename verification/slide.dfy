/**
  The landing screen: the category bar, the two rows of trending articles
  with their credibility badges, the search handler with its two personas,
  the simplified response panel and its two action buttons. The analysis
  call the handler awaits is not part of this model: its settlement is
  passed in.
*/
module Slide {
  import opened Basics
  import opened Js
  import opened Analysis
  import Api

  // ---------------------------------------------------------------------------
  // State
  // ---------------------------------------------------------------------------

  /** The component's state hooks. `articles` and `analysisData` hold
      whatever value the client produced. */
  datatype SlideState = SlideState(
    searchQuery: string,
    userType: UserType,
    showResponse: bool,
    articles: Value,
    loading: bool,
    analysisLoading: bool,
    analysisData: Value)

  const InitialState := SlideState("", UserType.Normal, false, Arr([]), true, false, Null)

  /** The fallback shown when the analysis call fails. */
  const NormalUserDataTemplate: Value := ToJson(NormalAnalysis)

  /** What the handler asks of the outside world. */
  datatype Effect =
    | NoEffect
    | RequestAnalysis(query: string)
    | OnSearchClick(query: string, userType: UserType)

  datatype Transition = Transition(state: SlideState, effect: Effect)

  /** How the awaited analysis call settled. */
  datatype Settlement = Fulfilled(value: Value) | Rejected

  // ---------------------------------------------------------------------------
  // Article loading on mount
  // ---------------------------------------------------------------------------

  /** The mount effect once `fetchArticles(5)` has settled; it never rejects,
      so the catch branch is not reachable. */
  function ArticlesLoaded(s: SlideState, fetched: Value): (t: SlideState)
    ensures t.articles == fetched && !t.loading
    ensures t.(articles := s.articles, loading := s.loading) == s
  {
    s.(articles := fetched, loading := false)
  }

  // ---------------------------------------------------------------------------
  // Search
  // ---------------------------------------------------------------------------

  /** The query counts only when something other than white space is left
      after trimming. */
  predicate HasQuery(s: SlideState) {
    Trim(s.searchQuery) != ""
  }

  /** The synchronous part of `handleSearchClick`, up to the await. */
  function SearchStart(s: SlideState, hasCallback: bool): (t: Transition)
    ensures !HasQuery(s) ==> t == Transition(s, NoEffect)
    ensures HasQuery(s) && s.userType == UserType.Normal ==>
      t == Transition(s.(analysisLoading := true), RequestAnalysis(s.searchQuery))
    ensures HasQuery(s) && s.userType == Journalist && hasCallback ==>
      t == Transition(s, OnSearchClick(s.searchQuery, Journalist))
    ensures HasQuery(s) && s.userType == Journalist && !hasCallback ==>
      t == Transition(s, NoEffect)
  {
    if !HasQuery(s) then Transition(s, NoEffect)
    else if s.userType == UserType.Normal then
      Transition(s.(analysisLoading := true), RequestAnalysis(s.searchQuery))
    else if hasCallback then Transition(s, OnSearchClick(s.searchQuery, s.userType))
    else Transition(s, NoEffect)
  }

  /** The part after the await: the result, or on failure the template, is
      stored, the panel is opened and loading ends. */
  function SearchSettle(s: SlideState, settlement: Settlement): (t: SlideState)
    ensures t.showResponse && !t.analysisLoading
    ensures settlement.Fulfilled? ==> t.analysisData == settlement.value
    ensures settlement.Rejected? ==> t.analysisData == NormalUserDataTemplate
    ensures t.searchQuery == s.searchQuery && t.userType == s.userType
    ensures t.articles == s.articles && t.loading == s.loading
  {
    var data := match settlement
      case Fulfilled(v) => v
      case Rejected => NormalUserDataTemplate;
    s.(analysisData := data, showResponse := true, analysisLoading := false)
  }

  /** `handleSearchClick` run to completion, with the analysis call settling
      as `settlement`; `hasCallback` says whether the host passed
      `onSearchClick`. */
  function HandleSearchClick(s: SlideState, hasCallback: bool, settlement: Settlement): (t: Transition)
    ensures t.state.searchQuery == s.searchQuery && t.state.userType == s.userType
    ensures t.state.articles == s.articles && t.state.loading == s.loading
    ensures t.effect.RequestAnalysis? <==> HasQuery(s) && s.userType == UserType.Normal
    ensures !t.effect.RequestAnalysis? ==> t.state == s
  {
    var start := SearchStart(s, hasCallback);
    if start.effect.RequestAnalysis? then
      Transition(SearchSettle(start.state, settlement), start.effect)
    else start
  }

  /** The outcomes of a search click, by query and persona. */
  lemma HandleSearchClickCases(s: SlideState, hasCallback: bool, settlement: Settlement)
    ensures var t := HandleSearchClick(s, hasCallback, settlement);
      && (!HasQuery(s) ==> t == Transition(s, NoEffect))
      && (HasQuery(s) && s.userType == UserType.Normal ==>
            && t.effect == RequestAnalysis(s.searchQuery)
            && t.state == s.(showResponse := true, analysisLoading := false,
                             analysisData := if settlement.Fulfilled? then settlement.value
                                             else NormalUserDataTemplate))
      && (HasQuery(s) && s.userType == Journalist ==>
            && t.state == s
            && t.effect == (if hasCallback then OnSearchClick(s.searchQuery, Journalist) else NoEffect))
  {
  }

  /** A click changes nothing and calls nothing exactly when the query is
      blank, or the persona is journalist and no callback was passed. */
  lemma SearchClickIsNoOpIff(s: SlideState, hasCallback: bool, settlement: Settlement)
    ensures HandleSearchClick(s, hasCallback, settlement).effect == NoEffect
      <==> !HasQuery(s) || (s.userType == Journalist && !hasCallback)
    ensures HandleSearchClick(s, hasCallback, settlement).effect == NoEffect
      ==> HandleSearchClick(s, hasCallback, settlement).state == s
  {
  }

  /** A query of white space only is ignored whatever the persona. */
  lemma BlankQueryIgnored(s: SlideState, hasCallback: bool, settlement: Settlement)
    requires forall k :: 0 <= k < |s.searchQuery| ==> IsWhiteSpace(s.searchQuery[k])
    ensures HandleSearchClick(s, hasCallback, settlement) == Transition(s, NoEffect)
  {
  }

  // ---------------------------------------------------------------------------
  // Response panel and its buttons
  // ---------------------------------------------------------------------------

  /** The guard on the simplified response panel. */
  predicate ResponseVisible(s: SlideState) {
    s.showResponse && s.userType == UserType.Normal && Truthy(s.analysisData) && !s.analysisLoading
  }

  /** The panel is hidden while the analysis is loading, and shown once a
      general reader's search settles with a truthy result or fails. */
  lemma ResponseVisibleAfterSearch(s: SlideState, hasCallback: bool, settlement: Settlement)
    requires HasQuery(s) && s.userType == UserType.Normal
    ensures !ResponseVisible(SearchStart(s, hasCallback).state)
    ensures ResponseVisible(HandleSearchClick(s, hasCallback, settlement).state)
      <==> settlement.Rejected? || Truthy(settlement.value)
  {
  }

  /** What the simplified panel shows besides the overall score: the bias
      classification, the AI confidence and the overview. */
  datatype Panel = PanelHidden | PanelShown(biasClassification: Value, confidence: Value, overview: Value)

  /** `v[outer]` can be read and is an object-like value whose own
      properties can be read in turn. */
  predicate HasNested(v: Value, outer: string) {
    GetProperty(v, outer).Returned? && !GetProperty(v, outer).value.Null?
    && !GetProperty(v, outer).value.Undefined?
  }

  /** A value React can render as a child: anything but a plain object,
      and an array only of such values. Rendering an object throws
      ("Objects are not valid as a React child"). */
  predicate Renderable(v: Value)
    decreases v
  {
    match v
    case Obj(_) => false
    case Arr(items) => forall i :: 0 <= i < |items| ==> Renderable(items[i])
    case _ => true
  }

  /** `v[key]` can be read and rendered. */
  predicate ShowsField(v: Value, key: string) {
    GetProperty(v, key).Returned? && Renderable(GetProperty(v, key).value)
  }

  /** `v[outer][inner]`, which throws when either step reads a property of
      null or undefined. */
  function ReadPath(v: Value, outer: string, inner: string): (r: Completion<Value>)
    ensures r.Returned? <==> HasNested(v, outer)
  {
    match GetProperty(v, outer)
    case Threw => Threw
    case Returned(o) => GetProperty(o, inner)
  }

  /** The two scores summed for the overall score can be converted to
      primitives, so `author_cred_score + source_reliablity_score` does not
      throw. */
  predicate ScoresAdd(d: Value) {
    && GetProperty(d, "author_cred_score").Returned? && Coercible(GetProperty(d, "author_cred_score").value)
    && GetProperty(d, "source_reliablity_score").Returned?
    && Coercible(GetProperty(d, "source_reliablity_score").value)
  }

  /** Anything React can render also converts to a primitive, so the
      confidence's template string at line 654 cannot throw once line 645
      rendered it. */
  lemma {:induction false} RenderableCoercible(v: Value)
    requires Renderable(v)
    ensures Coercible(v)
    decreases v
  {
    if v.Arr? {
      forall i | 0 <= i < |v.items|
        ensures Coercible(v.items[i])
      {
        RenderableCoercible(v.items[i]);
      }
    }
  }

  /** The overall score's sum can be taken, both nested reports exist, and
      the three leaves the panel renders are renderable. */
  predicate PanelReadable(d: Value) {
    && ScoresAdd(d)
    && HasNested(d, "Bias_sentiment_report") && HasNested(d, "Model_score")
    && Renderable(ReadPath(d, "Bias_sentiment_report", "bias_classification").value)
    && Renderable(ReadPath(d, "Model_score", "Confidence_score").value)
    && ShowsField(d, "general_overview")
  }

  /** The panel as rendered: hidden unless its guard holds; otherwise it
      renders `Bias_sentiment_report.bias_classification`,
      `Model_score.Confidence_score` and `general_overview`, and throws when
      the score sum cannot convert an operand, either nested report is
      missing, or a leaf is a plain object. */
  function RenderPanel(s: SlideState): (r: Completion<Panel>)
    ensures !ResponseVisible(s) ==> r == Returned(PanelHidden)
    ensures ResponseVisible(s) ==> (r.Returned? <==> PanelReadable(s.analysisData))
    ensures r.Returned? && r.value.PanelShown? ==>
      && Returned(r.value.biasClassification) == ReadPath(s.analysisData, "Bias_sentiment_report", "bias_classification")
      && Returned(r.value.confidence) == ReadPath(s.analysisData, "Model_score", "Confidence_score")
      && Returned(r.value.overview) == GetProperty(s.analysisData, "general_overview")
  {
    if !ResponseVisible(s) then Returned(PanelHidden)
    else
      var d := s.analysisData;
      match (ReadPath(d, "Bias_sentiment_report", "bias_classification"), ReadPath(d, "Model_score", "Confidence_score"))
      case (Returned(bias), Returned(confidence)) =>
        var overview := GetProperty(d, "general_overview");
        if ScoresAdd(d) && overview.Returned?
           && Renderable(bias) && Renderable(confidence) && Renderable(overview.value)
        then Returned(PanelShown(bias, confidence, overview.value))
        else Threw
      case _ => Threw
  }

  /** The nested reports of an analysis record as the panel reads them. */
  lemma ToJsonPanelFields(a: AnalysisResponse)
    ensures ReadPath(ToJson(a), "Bias_sentiment_report", "bias_classification")
      == Returned(Str(a.biasSentimentReport.biasClassification))
    ensures ReadPath(ToJson(a), "Model_score", "Confidence_score")
      == Returned(Num(a.modelScore.confidenceScore))
    ensures GetProperty(ToJson(a), "general_overview") == Returned(Str(a.generalOverview))
    ensures GetProperty(ToJson(a), "author_cred_score") == Returned(Num(a.authorCredScore))
    ensures GetProperty(ToJson(a), "source_reliablity_score") == Returned(Num(a.sourceReliablityScore))
  {
    var fs := ToJson(a).fields;
    LastKeyIndexAt(fs, "author_cred_score", 0);
    LastKeyIndexAt(fs, "source_reliablity_score", 1);
    assert LastKeyIndex(fs, "general_overview") == 7;
    assert LastKeyIndex(fs, "Model_score") == 6 by {
      assert LastKeyIndex(fs[..8], "Model_score") == 6;
    }
    assert LastKeyIndex(fs, "Bias_sentiment_report") == 3 by {
      assert LastKeyIndex(fs[..8], "Bias_sentiment_report") == LastKeyIndex(fs[..7], "Bias_sentiment_report");
      assert LastKeyIndex(fs[..7], "Bias_sentiment_report") == LastKeyIndex(fs[..6], "Bias_sentiment_report");
      assert LastKeyIndex(fs[..6], "Bias_sentiment_report") == LastKeyIndex(fs[..5], "Bias_sentiment_report");
      assert LastKeyIndex(fs[..5], "Bias_sentiment_report") == LastKeyIndex(fs[..4], "Bias_sentiment_report");
    }
    var bias := fs[3].1;
    assert LastKeyIndex(bias.fields, "bias_classification") == 1;
    var model := fs[6].1;
    assert LastKeyIndex(model.fields, "Confidence_score") == 0 by {
      assert LastKeyIndex(model.fields[..1], "Confidence_score") == 0;
    }
  }

  /** A shown panel over an analysis record renders its three leaves. */
  lemma PanelOfRecord(s: SlideState, a: AnalysisResponse)
    requires ResponseVisible(s) && s.analysisData == ToJson(a)
    ensures RenderPanel(s) == Returned(PanelShown(Str(a.biasSentimentReport.biasClassification),
                                                  Num(a.modelScore.confidenceScore), Str(a.generalOverview)))
  {
    ToJsonPanelFields(a);
  }

  /** A result whose bias classification is an object and whose model score
      is empty: the nested reports exist, but a leaf cannot be rendered. */
  const ObjectLeafResult: Value :=
    Obj([("Bias_sentiment_report", Obj([("bias_classification", Obj([]))])), ("Model_score", Obj([]))])

  lemma ObjectLeafResultUnreadable()
    ensures Truthy(ObjectLeafResult) && !PanelReadable(ObjectLeafResult)
  {
    var bias := ReadPath(ObjectLeafResult, "Bias_sentiment_report", "bias_classification");
    assert LastKeyIndex(ObjectLeafResult.fields, "Bias_sentiment_report") == 0 by {
      LastKeyIndexAt(ObjectLeafResult.fields, "Bias_sentiment_report", 0);
    }
    assert bias == Returned(Obj([]));
  }

  /** A result whose author score is an object with its own `toString`
      key, and whose reports and overview are otherwise fine. */
  const ToStringScoreResult: Value :=
    Obj([("author_cred_score", Obj([("toString", Num(1))])),
         ("Bias_sentiment_report", Obj([("bias_classification", Str("x"))])),
         ("Model_score", Obj([("Confidence_score", Num(1))])),
         ("general_overview", Str("y"))])

  /** The sum for the overall score throws on such a result, so the shown
      panel does too, although every leaf it renders is a string or number. */
  lemma ToStringScoreThrows(s: SlideState)
    requires ResponseVisible(s) && s.analysisData == ToStringScoreResult
    ensures RenderPanel(s).Threw?
  {
    var fs := ToStringScoreResult.fields;
    LastKeyIndexAt(fs, "author_cred_score", 0);
    assert !Coercible(GetProperty(ToStringScoreResult, "author_cred_score").value);
  }

  /** After a general reader's search the panel shows the analysis when the
      call returned an analysis record, the template's figures when it
      failed, and throws for a truthy result without a bias report (such as
      a bare string or `{}`) or with an object where a leaf is rendered. */
  lemma PanelAfterSearch(s: SlideState, hasCallback: bool, settlement: Settlement, a: AnalysisResponse)
    requires HasQuery(s) && s.userType == UserType.Normal
    ensures settlement == Fulfilled(ToJson(a)) ==>
      RenderPanel(HandleSearchClick(s, hasCallback, settlement).state)
        == Returned(PanelShown(Str(a.biasSentimentReport.biasClassification),
                               Num(a.modelScore.confidenceScore), Str(a.generalOverview)))
    ensures settlement.Rejected? ==>
      RenderPanel(HandleSearchClick(s, hasCallback, settlement).state)
        == Returned(PanelShown(Str("Moderate Left-leaning"), Num(82), Str(NormalAnalysis.generalOverview)))
    ensures (settlement.Fulfilled? && Truthy(settlement.value)
             && GetProperty(settlement.value, "Bias_sentiment_report") == Returned(Undefined)) ==>
      RenderPanel(HandleSearchClick(s, hasCallback, settlement).state).Threw?
    ensures settlement == Fulfilled(ObjectLeafResult) ==>
      RenderPanel(HandleSearchClick(s, hasCallback, settlement).state).Threw?
  {
    var t := HandleSearchClick(s, hasCallback, settlement).state;
    HandleSearchClickCases(s, hasCallback, settlement);
    ResponseVisibleAfterSearch(s, hasCallback, settlement);
    if settlement == Fulfilled(ToJson(a)) {
      PanelOfRecord(t, a);
    }
    if settlement.Rejected? {
      PanelOfRecord(t, NormalAnalysis);
    }
    if settlement == Fulfilled(ObjectLeafResult) {
      ObjectLeafResultUnreadable();
    }
  }

  /** "Try Another Query" closes the panel and changes nothing else. */
  function TryAnotherQuery(s: SlideState): (t: SlideState)
    ensures !ResponseVisible(t)
    ensures t.(showResponse := s.showResponse) == s
  {
    s.(showResponse := false)
  }

  /** "View Detailed Analysis" (rendered only when `onSearchClick` was passed)
      switches to the journalist persona and forwards the current query. */
  function ViewDetailedAnalysis(s: SlideState): (t: Transition)
    ensures !ResponseVisible(t.state)
    ensures t.state == s.(userType := Journalist)
    ensures t.effect == OnSearchClick(s.searchQuery, Journalist)
  {
    Transition(s.(userType := Journalist), OnSearchClick(s.searchQuery, Journalist))
  }

  /** The persona toggle buttons and the input field. */
  function SelectUserType(s: SlideState, t: UserType): SlideState {
    s.(userType := t)
  }

  function TypeQuery(s: SlideState, q: string): SlideState {
    s.(searchQuery := q)
  }

  /** Typing and choosing a persona never open the panel by themselves. */
  lemma InputKeepsPanelClosed(s: SlideState, q: string, t: UserType)
    requires !ResponseVisible(s)
    ensures !ResponseVisible(TypeQuery(s, q))
    ensures t == Journalist ==> !ResponseVisible(SelectUserType(s, t))
  {
  }

  // ---------------------------------------------------------------------------
  // Trending articles
  // ---------------------------------------------------------------------------

  /** The first row: `articles.slice(0, 2)`. */
  function FirstRow<T>(articles: seq<T>): (row: seq<T>)
    ensures |row| == Min(2, |articles|)
    ensures row == articles[..|row|]
  {
    Slice(articles, 0, 2)
  }

  /** The second row: `articles.slice(2, 5)`. */
  function SecondRow<T>(articles: seq<T>): (row: seq<T>)
    ensures |row| == Max(0, Min(5, |articles|) - 2)
    ensures row == articles[Min(2, |articles|)..Min(5, |articles|)]
  {
    Slice(articles, 2, 5)
  }

  /** The two rows show the first five articles, each once and in order. */
  lemma GridPartition<T>(articles: seq<T>)
    ensures FirstRow(articles) + SecondRow(articles) == articles[..Min(5, |articles|)]
    ensures |FirstRow(articles)| + |SecondRow(articles)| <= 5
  {
  }

  /** Badge bands: the first row has two, the second three. */
  datatype Badge = High | Middle | Low

  function FirstRowBadge(score: int): (b: Badge)
    ensures b != Middle
    ensures b == High <==> score >= 70
  {
    if score >= 70 then High else Low
  }

  function SecondRowBadge(score: int): (b: Badge)
    ensures b == High <==> score >= 70
    ensures b == Middle <==> 50 <= score < 70
    ensures b == Low <==> score < 50
  {
    if score >= 70 then High else if score >= 50 then Middle else Low
  }

  /** The badge colours (background, border, text) of each band. */
  datatype BadgeStyle = BadgeStyle(background: string, border: string, text: string)

  function BadgeColours(b: Badge): BadgeStyle {
    match b
    case High => BadgeStyle("rgba(70, 229, 86, 0.2)", "1px solid #46E556", "#007D0C")
    case Middle => BadgeStyle("rgba(229, 218, 70, 0.2)", "1px solid #E5E546", "#7D7800")
    case Low => BadgeStyle("rgba(229, 70, 70, 0.2)", "1px solid #E54646", "#7D0000")
  }

  /** The two rows agree on the top band; the first row's low band merges
      the second row's middle and low bands. */
  lemma BadgeBandsAgree(score: int)
    ensures FirstRowBadge(score) == High <==> SecondRowBadge(score) == High
    ensures FirstRowBadge(score) == Low <==> SecondRowBadge(score) in {Middle, Low}
  {
  }

  /** The first row never shows the middle band's yellow badge; the second
      row shows it exactly for scores in 50..69. */
  lemma BadgeColoursByRow(score: int)
    ensures BadgeColours(FirstRowBadge(score)) != BadgeColours(Middle)
    ensures BadgeColours(SecondRowBadge(score)) == BadgeColours(Middle) <==> 50 <= score < 70
  {
  }

  /** The trending section: a placeholder while loading, then the two rows. */
  datatype Grid = Placeholder | Rows(first: seq<Value>, second: seq<Value>)

  /** `v.slice(start, end).map(...)`. Only an array has both methods: a
      string's slice gives a string, which has no `map`, and other values
      have no `slice`; calling a missing method is a TypeError. */
  function SliceThenMap(v: Value, start: int, end: int): (r: Completion<seq<Value>>)
    ensures r.Returned? <==> v.Arr?
    ensures v.Arr? ==> r.value == Slice(v.items, start, end)
  {
    if v.Arr? then Returned(Slice(v.items, start, end)) else Threw
  }

  /** A first-row card renders the article's title, description and score. */
  predicate FirstCardRenders(article: Value) {
    ShowsField(article, "title") && ShowsField(article, "description")
    && ShowsField(article, "credibilityScore")
  }

  /** A second-row card renders the article's title and score. */
  predicate SecondCardRenders(article: Value) {
    ShowsField(article, "title") && ShowsField(article, "credibilityScore")
  }

  /** An array whose first two entries render as first-row cards and whose
      next three render as second-row cards. */
  predicate ShowableArticles(v: Value) {
    && v.Arr?
    && (forall i :: 0 <= i < Min(2, |v.items|) ==> FirstCardRenders(v.items[i]))
    && (forall i :: 2 <= i < Min(5, |v.items|) ==> SecondCardRenders(v.items[i]))
  }

  /** Rendering the trending section from the component's state. */
  function RenderGrid(s: SlideState): (r: Completion<Grid>)
    ensures s.loading ==> r == Returned(Placeholder)
    ensures !s.loading ==>
      (r.Returned? <==> ShowableArticles(s.articles))
    ensures !s.loading && r.Returned? ==>
      r.value == Rows(FirstRow(s.articles.items), SecondRow(s.articles.items))
  {
    if s.loading then Returned(Placeholder)
    else match (SliceThenMap(s.articles, 0, 2), SliceThenMap(s.articles, 2, 5))
      case (Returned(first), Returned(second)) =>
        GridPartition(s.articles.items);
        assert forall i :: 0 <= i < |first| ==> first[i] == s.articles.items[i];
        assert forall i :: 0 <= i < |second| ==> second[i] == s.articles.items[i + |first|];
        if (forall i :: 0 <= i < |first| ==> FirstCardRenders(first[i]))
           && (forall i :: 0 <= i < |second| ==> SecondCardRenders(second[i]))
        then Returned(Rows(first, second))
        else Threw
      case _ => Threw
  }

  /** The mock articles, written as objects, render as cards. */
  lemma MockArticlesRender()
    ensures ShowableArticles(Api.ArticlesToJson(Api.MockArticles))
  {
    var v := Api.ArticlesToJson(Api.MockArticles);
    forall i | 0 <= i < |v.items|
      ensures FirstCardRenders(v.items[i]) && SecondCardRenders(v.items[i])
    {
      assert v.items[i] == Api.ArticleToJson(Api.MockArticles[i]);
    }
  }

  /** A payload that carries its list under any key but `articles` (such as
      `{ data: [...] }`) is stored whole by the mount effect, and the grid
      then throws; a failed request shows the first two mock articles and
      the next three. */
  lemma GridAfterMount(s: SlideState, outcome: Api.HttpOutcome, items: seq<Value>)
    ensures var data := Obj([("data", Arr(items))]);
      RenderGrid(ArticlesLoaded(s, Api.FetchArticles(5, Api.Response(200, Some(data))))) == Threw
    ensures outcome.NetworkError? ==>
      RenderGrid(ArticlesLoaded(s, Api.FetchArticles(5, outcome)))
        == Returned(Rows(Api.ArticlesToJson(Api.MockArticles[..2]).items, Api.ArticlesToJson(Api.MockArticles[2..5]).items))
  {
    var data := Obj([("data", Arr(items))]);
    assert LastKeyIndex(data.fields, "articles") == -1;
    assert Api.FetchArticles(5, Api.Response(200, Some(data))) == data;
    if outcome.NetworkError? {
      var mock := Api.ArticlesToJson(Api.GetMockArticles(5));
      assert Api.GetMockArticles(5) == Api.MockArticles;
      MockArticlesRender();
      assert mock.items[..2] == Api.ArticlesToJson(Api.MockArticles[..2]).items;
      assert mock.items[2..5] == Api.ArticlesToJson(Api.MockArticles[2..5]).items;
    }
  }

  // ---------------------------------------------------------------------------
  // Category bar
  // ---------------------------------------------------------------------------

  const NavigationCategories: seq<string> := [
    "Opinion", "Business Trends", "Politics", "Sports",
    "Sustainability", "Academic", "Worlds of Luxury", "Performance"
  ]

  datatype BarItem = Category(name: string) | Separator

  /** The items rendered for categories `i..`: each category, followed by a
      separator when its index is below `length - 1`. */
  function BarFrom(categories: seq<string>, i: nat): seq<BarItem>
    requires i <= |categories|
    decreases |categories| - i
  {
    if i == |categories| then []
    else
      var separator := if i < |categories| - 1 then [Separator] else [];
      [Category(categories[i])] + separator + BarFrom(categories, i + 1)
  }

  function CategoryBar(categories: seq<string>): seq<BarItem> {
    BarFrom(categories, 0)
  }

  function CountSeparators(items: seq<BarItem>): (n: nat)
    ensures n <= |items|
    decreases |items|
  {
    if items == [] then 0
    else (if items[0] == Separator then 1 else 0) + CountSeparators(items[1..])
  }

  function CategoryNames(items: seq<BarItem>): (names: seq<string>)
    decreases |items|
  {
    if items == [] then []
    else (match items[0] case Category(n) => [n] case Separator => []) + CategoryNames(items[1..])
  }

  lemma CountSeparatorsAppend(a: seq<BarItem>, b: seq<BarItem>)
    ensures CountSeparators(a + b) == CountSeparators(a) + CountSeparators(b)
    ensures CategoryNames(a + b) == CategoryNames(a) + CategoryNames(b)
    decreases |a|
  {
    if a == [] {
      assert a + b == b;
    } else {
      assert (a + b)[0] == a[0];
      assert (a + b)[1..] == a[1..] + b;
      CountSeparatorsAppend(a[1..], b);
    }
  }

  lemma {:induction false} BarFromShape(categories: seq<string>, i: nat)
    requires i <= |categories|
    ensures CategoryNames(BarFrom(categories, i)) == categories[i..]
    ensures i < |categories| ==> CountSeparators(BarFrom(categories, i)) == |categories| - 1 - i
    ensures i == |categories| ==> CountSeparators(BarFrom(categories, i)) == 0
    ensures i < |categories| ==> |BarFrom(categories, i)| == 2 * (|categories| - i) - 1
    ensures forall k :: 0 <= k < |BarFrom(categories, i)| ==>
      BarFrom(categories, i)[k] == if k % 2 == 0 then Category(categories[i + k / 2]) else Separator
    decreases |categories| - i
  {
    if i < |categories| {
      var head := [Category(categories[i])] + (if i < |categories| - 1 then [Separator] else []);
      BarFromShape(categories, i + 1);
      CountSeparatorsAppend(head, BarFrom(categories, i + 1));
      CountSeparatorsAppend([Category(categories[i])], if i < |categories| - 1 then [Separator] else []);
      assert categories[i..] == [categories[i]] + categories[i + 1..];
      BarFromPositions(categories, i);
    }
  }

  /** One step of the position argument: past the head pair, item k of the
      bar from i is item k - 2 of the bar from i + 1. */
  lemma BarFromPositions(categories: seq<string>, i: nat)
    requires i < |categories|
    requires |BarFrom(categories, i + 1)| == if i + 1 < |categories| then 2 * (|categories| - i - 1) - 1 else 0
    requires forall k :: 0 <= k < |BarFrom(categories, i + 1)| ==>
      BarFrom(categories, i + 1)[k] == if k % 2 == 0 then Category(categories[i + 1 + k / 2]) else Separator
    ensures |BarFrom(categories, i)| == 2 * (|categories| - i) - 1
    ensures forall k :: 0 <= k < |BarFrom(categories, i)| ==>
      BarFrom(categories, i)[k] == if k % 2 == 0 then Category(categories[i + k / 2]) else Separator
  {
    var bar := BarFrom(categories, i);
    var tail := BarFrom(categories, i + 1);
    forall k | 0 <= k < |bar|
      ensures bar[k] == if k % 2 == 0 then Category(categories[i + k / 2]) else Separator
    {
      if k >= 2 {
        assert bar[k] == tail[k - 2];
        assert (k - 2) / 2 == k / 2 - 1 && (k - 2) % 2 == k % 2;
      }
    }
  }

  /** The bar lists every category in order with one separator between each
      neighbouring pair: n - 1 separators for n categories, none for none. */
  lemma CategoryBarSeparators(categories: seq<string>)
    ensures CategoryNames(CategoryBar(categories)) == categories
    ensures CountSeparators(CategoryBar(categories)) == Max(|categories| - 1, 0)
    ensures |CategoryBar(categories)| == Max(2 * |categories| - 1, 0)
    ensures forall k :: 0 <= k < |CategoryBar(categories)| ==>
      CategoryBar(categories)[k] == if k % 2 == 0 then Category(categories[k / 2]) else Separator
  {
    BarFromShape(categories, 0);
  }

  /** The landing screen's eight categories: "Opinion" first, "Performance"
      last, seven separators between them. */
  lemma NavigationBarFigures()
    ensures |CategoryBar(NavigationCategories)| == 15
    ensures CountSeparators(CategoryBar(NavigationCategories)) == 7
    ensures CategoryBar(NavigationCategories)[0] == Category("Opinion")
    ensures CategoryBar(NavigationCategories)[14] == Category("Performance")
  {
    CategoryBarSeparators(NavigationCategories);
  }
}
