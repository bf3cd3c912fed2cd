/**
  The REST client: the article list and the content analysis, each of which
  falls back to fixed local data instead of failing. The network is not
  modelled: what `fetch` and `response.json()` produced is passed in.
*/
module Api {
  import opened Basics
  import opened Js
  import opened Analysis

  const ApiBaseUrl := "https://alethia-back.vercel.app"

  // ---------------------------------------------------------------------------
  // Transport outcomes and requests
  // ---------------------------------------------------------------------------

  /** What one `fetch` and the following `response.json()` came to: the
      request was rejected, or a response arrived with a status and a body
      that either parsed as JSON or did not. */
  datatype HttpOutcome =
    | NetworkError
    | Response(status: int, body: Option<Value>)

  /** `response.ok`: the status lies in 200..299. */
  predicate IsOk(status: int) {
    200 <= status <= 299
  }

  datatype Method = Get | Post

  /** A request as the client issues it; `limit` is the `?limit=` query
      parameter, `body` the JSON payload. */
  datatype Request = Request(
    httpMethod: Method,
    url: string,
    limit: Option<int>,
    contentType: Option<string>,
    body: Option<Value>)

  function ArticlesRequest(limit: int): (r: Request)
    ensures r.httpMethod == Get && r.limit == Some(limit) && r.body == None
  {
    Request(Get, ApiBaseUrl + "/articles", Some(limit), None, None)
  }

  /** The analysis request: a JSON POST carrying the query under `content`
      and the persona under `user_type`. */
  function AnalyzeRequest(query: string, userType: UserType): (r: Request)
    ensures r.httpMethod == Post && r.url == ApiBaseUrl + "/analyze"
    ensures r.contentType == Some("application/json")
    ensures r.body.Some? && r.body.value.Obj?
    ensures GetProperty(r.body.value, "content") == Returned(Str(query))
    ensures GetProperty(r.body.value, "user_type") == Returned(Str(UserTypeName(userType)))
  {
    var body := Obj([("content", Str(query)), ("user_type", Str(UserTypeName(userType)))]);
    assert LastKeyIndex(body.fields, "user_type") == 1;
    assert LastKeyIndex(body.fields, "content") == 0 by {
      assert body.fields[1].0 != "content";
      assert LastKeyIndex(body.fields[..1], "content") == 0;
    }
    Request(Post, ApiBaseUrl + "/analyze", None, Some("application/json"), Some(body))
  }

  // ---------------------------------------------------------------------------
  // Articles
  // ---------------------------------------------------------------------------

  datatype Article = Article(
    id: string,
    title: string,
    description: string,
    credibilityScore: int,
    url: Option<string>,
    category: Option<string>,
    publishedAt: Option<string>,
    source: Option<string>)

  const MockArticles: seq<Article> := [
    Article("1", "Climate Change Impacts on Global Economy",
      "Analysis of economic effects from climate change across different sectors",
      87, None, Some("Sustainability"), None, Some("Environmental Research Institute")),
    Article("2", "Political Trends in Democratic Institutions",
      "Examining shifts in democratic participation and institutional trust",
      75, None, Some("Politics"), None, Some("Political Science Quarterly")),
    Article("3", "Technology's Role in Modern Education",
      "How digital transformation is reshaping learning environments",
      92, None, Some("Academic"), None, Some("Educational Technology Review")),
    Article("4", "Global Sports Industry Financial Analysis",
      "Economic trends and market dynamics in professional sports",
      68, None, Some("Sports"), None, Some("Sports Business Journal")),
    Article("5", "Luxury Market Consumer Behavior Study",
      "Understanding purchasing patterns in high-end consumer markets",
      81, None, Some("Worlds of Luxury"), None, Some("Luxury Market Research"))
  ]

  /** The five mock articles carry the ids "1".."5" in order (so the ids are
      distinct) and scores within 0..100. */
  lemma MockArticlesWellFormed()
    ensures |MockArticles| == 5
    ensures forall i :: 0 <= i < 5 ==> MockArticles[i].id == [('1' as int + i) as char]
    ensures forall i, j :: 0 <= i < j < 5 ==> MockArticles[i].id != MockArticles[j].id
    ensures forall i :: 0 <= i < 5 ==> 0 <= MockArticles[i].credibilityScore <= 100
  {
    assert MockArticles[0].id == ['1'];
    assert MockArticles[1].id == ['2'];
    assert MockArticles[2].id == ['3'];
    assert MockArticles[3].id == ['4'];
    assert MockArticles[4].id == ['5'];
  }

  /** `mockArticles.slice(0, limit)`: the first `limit` mock articles; a
      negative limit counts back from the end of the list. */
  function GetMockArticles(limit: int): (r: seq<Article>)
    ensures 0 <= limit ==> r == MockArticles[..Min(limit, |MockArticles|)]
    ensures limit < 0 ==> r == MockArticles[..Max(|MockArticles| + limit, 0)]
  {
    Slice(MockArticles, 0, limit)
  }

  /** An article as the object literal the source writes (absent optional
      properties are not written); the card reads its title, description
      and score back. */
  function ArticleToJson(a: Article): (v: Value)
    ensures v.Obj? && Truthy(v)
    ensures GetProperty(v, "title") == Returned(Str(a.title))
    ensures GetProperty(v, "description") == Returned(Str(a.description))
    ensures GetProperty(v, "credibilityScore") == Returned(Num(a.credibilityScore))
  {
    var optional := OptionalField("url", a.url) + OptionalField("category", a.category)
      + OptionalField("publishedAt", a.publishedAt) + OptionalField("source", a.source);
    var fields := [("id", Str(a.id)), ("title", Str(a.title)), ("description", Str(a.description)),
                   ("credibilityScore", Num(a.credibilityScore))] + optional;
    assert forall k :: 4 <= k < |fields| ==> fields[k] in optional;
    LastKeyIndexAt(fields, "title", 1);
    LastKeyIndexAt(fields, "description", 2);
    LastKeyIndexAt(fields, "credibilityScore", 3);
    Obj(fields)
  }

  /** The property `key` when the value is present, nothing otherwise. */
  function OptionalField(key: string, value: Option<string>): (r: seq<(string, Value)>)
    ensures forall p :: p in r ==> p.0 == key
  {
    match value
    case None => []
    case Some(s) => [(key, Str(s))]
  }

  function ArticlesToJson(articles: seq<Article>): (v: Value)
    ensures v.Arr? && |v.items| == |articles|
    ensures forall i :: 0 <= i < |articles| ==> v.items[i] == ArticleToJson(articles[i])
  {
    Arr(seq(|articles|, i requires 0 <= i < |articles| => ArticleToJson(articles[i])))
  }

  /** `data.articles || data || []`, which throws when `data` is null. */
  function PickArticles(data: Value): (r: Completion<Value>)
    ensures r.Threw? <==> data.Null? || data.Undefined?
  {
    match GetProperty(data, "articles")
    case Threw => Threw
    case Returned(articles) => Returned(Or(articles, Or(data, Arr([]))))
  }

  /** The order of preference: the `articles` property when truthy, then the
      whole payload when truthy, then an empty list. */
  lemma PickArticlesOrder(data: Value)
    requires !data.Null? && !data.Undefined?
    ensures var articles := GetProperty(data, "articles").value;
      && (Truthy(articles) ==> PickArticles(data) == Returned(articles))
      && (!Truthy(articles) && Truthy(data) ==> PickArticles(data) == Returned(data))
      && (!Truthy(articles) && !Truthy(data) ==> PickArticles(data) == Returned(Arr([])))
  {
  }

  /** `fetchArticles(limit)`: any failure, including a non-2xx status, an
      unparsable body and a payload whose `articles` cannot be read, yields
      the mock list; otherwise the picked payload. */
  function FetchArticles(limit: int, outcome: HttpOutcome): (r: Value)
    ensures outcome.NetworkError? ==> r == ArticlesToJson(GetMockArticles(limit))
    ensures outcome.Response? && !IsOk(outcome.status) ==> r == ArticlesToJson(GetMockArticles(limit))
    ensures outcome.Response? && outcome.body == None ==> r == ArticlesToJson(GetMockArticles(limit))
    ensures outcome.Response? && IsOk(outcome.status) && outcome.body.Some?
      ==> r == match PickArticles(outcome.body.value)
              case Threw => ArticlesToJson(GetMockArticles(limit))
              case Returned(v) => v
  {
    var mock := ArticlesToJson(GetMockArticles(limit));
    match outcome
    case NetworkError => mock
    case Response(status, body) =>
      if !IsOk(status) then mock
      else match body
        case None => mock
        case Some(data) =>
          match PickArticles(data)
          case Threw => mock
          case Returned(v) => v
  }

  /** fetchArticles never fails and never yields a falsy value: every
      outcome produces either the mock list or a truthy picked payload,
      and an ok response with a truthy `articles` property yields exactly it. */
  lemma FetchArticlesNeverFails(limit: int, outcome: HttpOutcome)
    ensures Truthy(FetchArticles(limit, outcome))
    ensures outcome.Response? && IsOk(outcome.status) && outcome.body.Some?
      && outcome.body.value.Obj?
      && Truthy(LookupLast(outcome.body.value.fields, "articles"))
      ==> FetchArticles(limit, outcome) == LookupLast(outcome.body.value.fields, "articles")
  {
  }

  // ---------------------------------------------------------------------------
  // Analysis
  // ---------------------------------------------------------------------------

  /** The fixed analysis for a persona. */
  function GetMockAnalysis(userType: UserType): (a: AnalysisResponse)
    ensures a.authorCredScore == 75 && a.sourceReliablityScore == 68
    ensures a.modelScore.confidenceScore == 82
    ensures userType == Normal ==>
      |a.biasSentimentReport.sentimentDistribution| == 2
      && |a.manupulationTechniques| == 2 && |a.toolsUsed| == 3
    ensures userType == Journalist ==>
      |a.biasSentimentReport.sentimentDistribution| == 3
      && |a.manupulationTechniques| == 4 && |a.toolsUsed| == 5
  {
    FixtureFigures();
    if userType == Normal then NormalAnalysis else JournalistAnalysis
  }

  /** `analyzeContent(query, userType)`: an ok response's parsed body is
      returned as is; any failure yields the persona's mock analysis. The
      query only travels in the request (see AnalyzeRequest). */
  function AnalyzeContent(query: string, userType: UserType, outcome: HttpOutcome): (r: Value)
    ensures outcome.Response? && IsOk(outcome.status) && outcome.body.Some?
      ==> r == outcome.body.value
    ensures !(outcome.Response? && IsOk(outcome.status) && outcome.body.Some?)
      ==> r == ToJson(GetMockAnalysis(userType))
  {
    match outcome
    case NetworkError => ToJson(GetMockAnalysis(userType))
    case Response(status, body) =>
      if !IsOk(status) then ToJson(GetMockAnalysis(userType))
      else match body
        case None => ToJson(GetMockAnalysis(userType))
        case Some(data) => data
  }
}
