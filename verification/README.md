# Aletheia front end — a Dafny model of its display rules and state machines

Aletheia's web front end has two screens. The landing screen ("Slide") takes a
query and a persona: a general reader or a journalist. The report screen
shows a credibility analysis: author and source scores, a bias label,
citations, manipulation techniques and the tools used.

Most of the code is presentation. This project models the parts that
decide something:

- **Report** (`report.dfy`) picks the fixed analysis to show from the
  `userType` prop. It colours the bias label, puts each score into one of
  three colour bands, rounds the mean of the author and source scores, cuts
  the key-features text to 100 characters, numbers the citations from 1, and
  computes the three summary counters.
- **Slide** (`slide.dfy`) models `handleSearchClick`. The call it awaits is
  passed in as a `Settlement`. The module also models the two-row article
  grid with its two-band and three-band credibility badges, the category bar
  separators, the guard on the response panel, and its two buttons. The grid
  and the panel are rendered from whatever value the client produced, so
  the model says when reading that value throws.
- **Api** (`api.ts` → `api.dfy`) models the article and analysis requests.
  Each substitutes fixed mock data instead of failing. `fetch` and
  `response.json()` outcomes are passed in as an `HttpOutcome`. The analysis
  request goes to `/analyze`, with the query under `content`. The server's
  article list is not capped: only the mock slice and the grid stop at
  five. A payload such as `{ data: [...] }` has no `articles` property, so
  it is returned whole. The landing screen's grid then throws
  (`Slide.GridAfterMount`).
- **App** (`app.dfy`) models the navigation machine: the screen, the
  persona, the query, the "preparing report" overlay and the loading message
  that rotates modulo 3. The interval timer's firings are `Tick` events. A
  React effect resets the message index whenever `isTransitioning` changes,
  so every `Step` is the event's handler followed by that effect.
- `js.dfy` holds the ECMAScript behaviour the code leans on: values as
  JSON.parse produces them, truthiness, `||`, property access,
  `toLowerCase`, `includes`, `trim` and `Array.prototype.slice`.
  `analysis.dfy` holds the analysis record and its two fixtures. The normal
  fixture is written out identically in Report.tsx, Slide.tsx and api.ts.
  The journalist fixture is identical in Report.tsx and api.ts. Each is
  defined once here.

As written, App passes `onBackClick`, `onReady` and `searchQuery` to Report,
but Report declares only `userType`. Slide imports `generateAnalysis` and
`generateReport`, but api.ts does not export them. The model keeps each file
as written. In particular, nothing in Report ever raises `ReportReady`, and
nothing calls `navigateToHome` either. Once the overlay is up, only those
two events would lower it (`App.OverlayStaysUntilReadyOrHome`).

## Model

| member | source | states |
|---|---|---|
| Report.SelectData | src/screens/Report/Report.tsx:69-71 | the journalist data is shown exactly when the prop is "journalist"; an absent prop or "normal" shows the normal data |
| Report.BiasColor | src/screens/Report/Report.tsx:62-66 | the colour is always one of the four label colours |
| Report.BiasColorCases | src/screens/Report/Report.tsx:63-66 | each colour is chosen exactly when its word is the first of left, right, neutral in the lower-cased label; grey exactly when none occurs |
| Report.BiasColorCaseInsensitive | src/screens/Report/Report.tsx:63-65 | a label and its lower-case form get the same colour |
| Report.BiasColorLeftFirst | src/screens/Report/Report.tsx:63-64 | a label containing both "left" and "right" gets the left colour |
| Report.ScoreBand | src/screens/Report/Report.tsx:442 | green iff score ≥ 70, orange iff 40 ≤ score < 70, red iff score < 40 |
| Report.ScoreColour | src/screens/Report/Report.tsx:217 | each of the three hex colours is chosen exactly in its band (also used at lines 249, 442 and 452) |
| Report.ScoreBandMonotone | src/screens/Report/Report.tsx:249 | a higher score never falls into a worse band |
| Report.MathRound | src/screens/Report/Report.tsx:188 | the result is the integer r with r ≤ x + 1/2 < r + 1 |
| Report.OverallScore | src/screens/Report/Report.tsx:188 | twice the score lies between author + source and author + source + 1, i.e. the mean rounded with halves up |
| Report.OverallScoreIntegerForm | src/screens/Report/Report.tsx:188 | for naturals the rounded mean equals (a + b + 1) / 2 in integer division |
| Report.OverallScoreBetween | src/screens/Report/Report.tsx:188 | the overall score lies between the smaller and the larger of the two scores |
| Report.TruncateKeyFeatures | src/screens/Report/Report.tsx:482-484 | text of at most 100 characters is unchanged; longer text becomes its first 100 characters then "..." (103 in all) |
| Report.TruncateKeyFeaturesIdempotent | src/screens/Report/Report.tsx:482-484 | the shown text is at most 103 characters and shortening it again changes nothing |
| Report.NumberFrom | src/screens/Report/Report.tsx:624-644 | entry i carries number first + i and the i-th citation |
| Report.NumberCitationsFaithful | src/screens/Report/Report.tsx:624-644 | the numbered list keeps every citation in order and labels them 1..n, strictly increasing |
| Report.Summarise | src/screens/Report/Report.tsx:701-749 | the counters equal the lengths of citations, tools_used and manupulation_techniques |
| Report.CitationCounterMatchesNumbering | src/screens/Report/Report.tsx:644-701 | the citations counter equals the number on the last listed citation |
| Report.Figures | src/screens/Report/Report.tsx:69-749 | for the selected data: the overall score is the rounded mean; each score colour is its band's colour; the bias colour follows the label rule; the key features are the truncated text (at most 103 characters); the citations are the data's in order, labelled 1..n; the counters are the three list lengths |
| Report.FixtureBiasIsLeft | src/screens/Report/Report.tsx:18 | the fixtures' label "Moderate Left-leaning" gets the left colour |
| Report.NormalReportFigures | src/screens/Report/Report.tsx:8-31 | a general reader sees 72, green/orange/green scores, the left colour, the 100-character key features uncut, counters 3/3/2 |
| Report.JournalistReportFigures | src/screens/Report/Report.tsx:34-59 | a journalist sees 72, the left colour, key features cut to 103 characters, counters 3/5/4 |
| Analysis.UserTypeName | src/screens/Report/Report.tsx:1 | each persona has its own string, "normal" or "journalist" |
| Analysis.FixtureFigures | src/services/api.ts:123-176 | both fixtures have scores 75/68/82; normal has 2 sentiments, 2 techniques, 3 tools; journalist 3, 4, 5 |
| Js.Includes | src/screens/Report/Report.tsx:63-65 | the scan reports a match exactly when the needle occurs at some index of the text |
| Js.LowerIdempotent | src/screens/Report/Report.tsx:63-65 | lower-casing twice equals lower-casing once |
| Js.Trim | src/screens/Slide/Slide.tsx:65 | the trimmed query is empty iff every character is white space; otherwise it starts and ends with non-white space; it sits in the query with only white space before and after it |
| Js.Slice | src/screens/Slide/Slide.tsx:255 | for non-negative bounds the slice is the clamped segment, empty when end ≤ start |
| Js.RelativeIndex | src/services/api.ts:120 | a non-negative bound is clamped to the length; a negative one counts back from the end, floored at 0 |
| Js.Or | src/services/api.ts:40 | the logical-or operator yields its left operand when truthy and its right one otherwise, and is truthy iff either is |
| Js.GetProperty | src/services/api.ts:40 | reading a property throws exactly on null and undefined; an object yields its last binding of the key |
| Js.LastKeyIndexAt | src/services/api.ts:39-40 | a key held at j and at no later index is found at j |
| Js.LastKeyIndex | src/services/api.ts:39-40 | the index found holds the key and no later pair does |
| Api.ArticlesRequest | src/services/api.ts:35 | the articles request is a GET carrying the limit and no body |
| Api.AnalyzeRequest | src/services/api.ts:51-60 | the analysis request is a JSON POST to /analyze whose body has the query under `content` and the persona under `user_type` |
| Api.MockArticlesWellFormed | src/services/api.ts:77-118 | five mock articles with ids "1".."5" in order, pairwise distinct, scores within 0..100 |
| Api.GetMockArticles | src/services/api.ts:76-121 | a non-negative limit yields the first min(limit, 5) mock articles in order; a negative one drops that many from the end |
| Api.ArticleToJson | src/services/api.ts:78-117 | an article written as an object reads back its title, description and score |
| Api.PickArticles | src/services/api.ts:40 | picking throws exactly when the payload is null |
| Api.PickArticlesOrder | src/services/api.ts:40 | the `articles` property if truthy, else the payload if truthy, else an empty list |
| Api.FetchArticles | src/services/api.ts:33-46 | a network error, a non-2xx status, an unparsable body or a null payload all yield the mock list; otherwise the picked payload |
| Api.FetchArticlesNeverFails | src/services/api.ts:33-46 | every outcome yields a truthy value, and an ok payload's truthy `articles` is returned exactly |
| Api.GetMockAnalysis | src/services/api.ts:123-178 | both fixtures score 75/68/82; normal has 2 sentiments, 2 techniques, 3 tools; journalist 3, 4, 5 |
| Api.AnalyzeContent | src/services/api.ts:49-73 | an ok response's parsed body is returned unmodified; every failure yields the persona's mock analysis |
| Slide.ArticlesLoaded | src/screens/Slide/Slide.tsx:48-62 | once `fetchArticles(5)` settles, the stored articles are its value and loading is off; nothing else changes |
| Slide.SearchStart | src/screens/Slide/Slide.tsx:64-84 | blank query: nothing; reader: loading on, analysis requested with the untrimmed query; journalist: the callback gets the untrimmed query, or nothing without a callback |
| Slide.SearchSettle | src/screens/Slide/Slide.tsx:69-79 | the result (or on failure the template) is stored, the panel opens, loading ends, nothing else changes |
| Slide.HandleSearchClick | src/screens/Slide/Slide.tsx:64-86 | a click never changes the query, the persona or the articles; it requests an analysis iff the query is non-blank and the persona is normal, and otherwise leaves the state unchanged |
| Slide.HandleSearchClickCases | src/screens/Slide/Slide.tsx:64-85 | the complete outcome of a click for each query/persona/callback case |
| Slide.SearchClickIsNoOpIff | src/screens/Slide/Slide.tsx:65-84 | a click has no effect iff the query is blank, or the persona is journalist with no callback; then the state is unchanged too |
| Slide.BlankQueryIgnored | src/screens/Slide/Slide.tsx:65 | a query of white space only changes nothing and calls nothing |
| Slide.ResponseVisibleAfterSearch | src/screens/Slide/Slide.tsx:532 | the panel is hidden while loading; after a reader's search its guard holds iff the call failed or returned a truthy value (whether its body then renders or throws is Slide.RenderPanel) |
| Slide.RenderPanel | src/screens/Slide/Slide.tsx:532-684 | hidden unless the guard holds; when shown it renders iff the two scores summed at line 550 convert to primitives (no object with an own `toString`, arrays only of such values), both nested reports are present (not null or undefined), and the bias classification, confidence and overview are each renderable (no plain object, arrays only of renderable values), showing those three values; otherwise it throws |
| Slide.PanelOfRecord | src/screens/Slide/Slide.tsx:619-684 | a shown panel over an analysis record renders its classification, confidence and overview |
| Slide.RenderableCoercible | src/screens/Slide/Slide.tsx:645-654 | every value React can render converts to a primitive, so the confidence's template string cannot throw once it rendered |
| Slide.ToStringScoreThrows | src/screens/Slide/Slide.tsx:550 | a shown panel whose author score is an object with its own `toString` key throws, though all its rendered leaves are strings and numbers |
| Slide.ObjectLeafResultUnreadable | src/screens/Slide/Slide.tsx:619 | a truthy result whose bias classification is an object cannot be rendered |
| Slide.ToJsonPanelFields | src/screens/Slide/Slide.tsx:619-684 | an analysis record, written as an object, yields its bias classification, confidence and overview along the panel's property paths |
| Slide.PanelAfterSearch | src/screens/Slide/Slide.tsx:69-684 | after a reader's search the panel shows a returned record's figures, or the template's ("Moderate Left-leaning", 82) on failure; a truthy result without a bias report throws |
| Slide.TryAnotherQuery | src/screens/Slide/Slide.tsx:693 | only showResponse changes, to false, and the panel is hidden |
| Slide.ViewDetailedAnalysis | src/screens/Slide/Slide.tsx:705-710 | the persona becomes journalist, the current query is forwarded with "journalist", and the panel is hidden |
| Slide.InputKeepsPanelClosed | src/screens/Slide/Slide.tsx:414-481 | typing, or choosing the journalist persona, never opens a closed panel |
| Slide.FirstRow | src/screens/Slide/Slide.tsx:255 | the first row is the first min(2, n) articles |
| Slide.SecondRow | src/screens/Slide/Slide.tsx:321 | the second row is articles[min(2, n)..min(5, n)], so it holds max(0, min(5, n) − 2) articles |
| Slide.GridPartition | src/screens/Slide/Slide.tsx:255-321 | the two rows, concatenated, are exactly the first min(5, n) articles: disjoint, in order, at most five |
| Slide.FirstRowBadge | src/screens/Slide/Slide.tsx:291-292 | two bands: high iff score ≥ 70, never middle |
| Slide.SecondRowBadge | src/screens/Slide/Slide.tsx:345-346 | three bands: high iff ≥ 70, middle iff 50 ≤ score < 70, low iff < 50 |
| Slide.BadgeBandsAgree | src/screens/Slide/Slide.tsx:291-361 | the rows agree on the top band; the first row's low band is the second row's middle and low bands |
| Slide.BadgeColoursByRow | src/screens/Slide/Slide.tsx:291-361 | the first row never shows the yellow badge; the second row shows it exactly for scores 50..69 |
| Slide.RenderGrid | src/screens/Slide/Slide.tsx:239-364 | a placeholder while loading; then it renders iff the articles are an array whose first two entries have a renderable title, description and score and whose next three have a renderable title and score, as the first two and the next three; otherwise it throws |
| Slide.MockArticlesRender | src/screens/Slide/Slide.tsx:255-364 | the mock articles, written as objects, render as cards |
| Slide.GridAfterMount | src/screens/Slide/Slide.tsx:52-255 | a `{ data: [...] }` payload is stored whole and makes the grid throw; a network failure shows mock articles 1-2 and 3-5 |
| Slide.BarFromShape | src/screens/Slide/Slide.tsx:210-218 | from index i, the bar lists categories[i..] and n − 1 − i separators; it has 2(n − i) − 1 items, categories at even positions and separators at odd ones |
| Slide.BarFromPositions | src/screens/Slide/Slide.tsx:210-218 | categories at even positions and separators at odd ones carry over from the bar from i + 1 to the bar from i |
| Slide.CategoryBarSeparators | src/screens/Slide/Slide.tsx:210-218 | item 2k is category k and item 2k + 1 a separator, so a separator follows every category but the last: 2n − 1 items, max(n − 1, 0) separators |
| Slide.NavigationBarFigures | src/screens/Slide/Slide.tsx:87-218 | the eight categories give 15 items with 7 separators, from "Opinion" to "Performance" |
| App.Handle | src/App.tsx:24-38 | navigateToReport sets screen, transition, query and persona; navigateToHome sets only screen and transition; handleReportReady only clears the transition |
| App.Step | src/App.tsx:40-55 | the message index resets to 0 whenever isTransitioning changes and is otherwise untouched except by ticks |
| App.InitialStateInv | src/App.tsx:9-13 | the initial state (slide, normal, "", not transitioning, 0) satisfies the invariant |
| App.StepPreservesInv | src/App.tsx:15-55 | every event keeps the index in [0, 3) and at 0 while not transitioning; a tick advances it modulo 3 and does nothing when not transitioning |
| App.RunPreservesInv | src/App.tsx:40-55 | the invariant holds after any sequence of events |
| App.OverlayStaysUntilReadyOrHome | src/App.tsx:24-38 | once raised, the overlay stays up through any events other than ReportReady and NavigateToHome |
| App.NavigateToHomeKeepsQuery | src/App.tsx:31-34 | going home keeps query and persona, shows the slide screen and lowers the overlay |
| App.ReportReadyIdempotent | src/App.tsx:36-38 | readiness only lowers the overlay (index back to 0), and signalling it twice equals once |
| App.ThreeTicksCycle | src/App.tsx:48-50 | three ticks bring the message back to where it was |
| App.Render | src/App.tsx:57-80 | the report is rendered iff the screen is report, with the app's persona; the overlay shows iff transitioning, with the current message |
| App.SlideCallback | src/App.tsx:67 | the landing screen's callback is navigateToReport with the same query and persona |
| App.JournalistSearchOpensReport | src/App.tsx:24-29 | a journalist search with a non-blank query renders the journalist report under the overlay and stores the query in the app (Report as written does not read it) |

## Left out

- JSX layout, inline styles, fonts and SVG paths. They are presentation
  with no behaviour. So are the map-rendered lists beyond their numbering
  and counts, and the Slide response panel's styling.
- Real `fetch` calls, JSON parsing, `console.error`, `setInterval` and
  `clearInterval`, and Vercel `Analytics`. These are I/O and timers. Their
  outcomes are parameters (`HttpOutcome`, `Settlement`) and their firings
  are `Tick` events.
- React's scheduling and async interleaving. An edit to the query, or a
  second click, between the await and its settlement is not modelled.
  `HandleSearchClick` applies the settlement to the state captured at the
  click.
- `generateAnalysis` is not part of this model. api.ts does not export it,
  so what it resolves to is the `Settlement` parameter.
- `Api.ArticlesRequest`: the `?limit=` query string is a field of the
  request, not a formatted URL. Number-to-text formatting is not modelled.
- Js.Lower: folds only the ASCII letters A–Z. `toLowerCase` also folds the
  rest of Unicode. The three words searched for are ASCII.
- Report.TruncateKeyFeatures: lengths count Unicode scalar values.
  JavaScript counts UTF-16 code units. They differ only outside the Basic
  Multilingual Plane.
- Js.GetProperty: ignores properties inherited from prototypes and the own
  built-in properties of strings and arrays (`length`, indices). No key the
  code reads names one.
- JavaScript numbers are integers here. NaN and fractional scores are not
  modelled, nor is a fractional `limit`.
- Slide.ViewDetailedAnalysis: has no callback parameter. The button is only
  rendered when `onSearchClick` was passed.
- Slide.RenderPanel: does not compute the value of the panel's overall
  score (line 550). JavaScript's `+` and `/` coercions of non-number
  operands are not modelled. Only whether `+` throws is modelled. For an
  analysis record the score is `Report.OverallScore`.
- Slide.RenderGrid: returns the articles each card shows, not the cards.
  The badge tests `>= 70` and `>= 50` are defined on integer scores only.
  JavaScript's coercion of other values is not modelled.
