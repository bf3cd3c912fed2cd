/**
  The top-level navigation: which screen is shown, the "preparing report"
  overlay, and the rotating loading message. The interval timer is not
  modelled; each of its firings is a `Tick` event.
*/
module App {
  import opened Basics
  import opened Analysis
  import Slide
  import Report

  datatype Screen = SlideScreen | ReportScreen

  datatype AppState = AppState(
    currentScreen: Screen,
    userType: UserType,
    searchQuery: string,
    isTransitioning: bool,
    loadingMessageIndex: int)

  const LoadingMessages: seq<string> := [
    "Reports can take up to five minutes\U{2014}careful verification is worth the wait.",
    "Great reporting takes time; we're double-checking every claim.",
    "Cross-referencing sources and scoring credibility... almost there."
  ]

  const InitialState := AppState(SlideScreen, UserType.Normal, "", false, 0)

  datatype Event =
    | NavigateToReport(query: string, userType: UserType)
    | NavigateToHome
    | ReportReady
    | Tick

  /** The state setters each handler calls. */
  function Handle(s: AppState, e: Event): (t: AppState)
    ensures e.NavigateToReport? ==>
      t == s.(currentScreen := ReportScreen, isTransitioning := true,
              searchQuery := e.query, userType := e.userType)
    ensures e.NavigateToHome? ==> t == s.(currentScreen := SlideScreen, isTransitioning := false)
    ensures e.ReportReady? ==> t == s.(isTransitioning := false)
  {
    match e
    case NavigateToReport(q, u) =>
      s.(isTransitioning := true, searchQuery := q, userType := u, currentScreen := ReportScreen)
    case NavigateToHome => s.(isTransitioning := false, currentScreen := SlideScreen)
    case ReportReady => s.(isTransitioning := false)
    case Tick =>
      // The interval only exists while the overlay is up.
      if s.isTransitioning
      then s.(loadingMessageIndex := (s.loadingMessageIndex + 1) % |LoadingMessages|)
      else s
  }

  /** One event followed by the effect keyed on `isTransitioning`: whenever
      that flag changes the message index is reset to 0. */
  function Step(s: AppState, e: Event): (t: AppState)
    ensures t.currentScreen == Handle(s, e).currentScreen
    ensures t.isTransitioning == Handle(s, e).isTransitioning
    ensures t.searchQuery == Handle(s, e).searchQuery && t.userType == Handle(s, e).userType
    ensures t.isTransitioning != s.isTransitioning ==> t.loadingMessageIndex == 0
    ensures t.isTransitioning == s.isTransitioning && !e.Tick? ==>
      t.loadingMessageIndex == s.loadingMessageIndex
  {
    var h := Handle(s, e);
    if h.isTransitioning != s.isTransitioning then h.(loadingMessageIndex := 0) else h
  }

  /** The index names one of the three messages, and it is 0 whenever the
      overlay is down. */
  predicate Inv(s: AppState) {
    0 <= s.loadingMessageIndex < |LoadingMessages|
    && (!s.isTransitioning ==> s.loadingMessageIndex == 0)
  }

  lemma InitialStateInv()
    ensures Inv(InitialState)
  {
  }

  /** Every event keeps the invariant; a tick while transitioning advances
      the index by one modulo 3, and no tick acts while not transitioning. */
  lemma StepPreservesInv(s: AppState, e: Event)
    requires Inv(s)
    ensures Inv(Step(s, e))
    ensures e.Tick? && s.isTransitioning ==>
      Step(s, e).loadingMessageIndex == (s.loadingMessageIndex + 1) % 3
    ensures e.Tick? && !s.isTransitioning ==> Step(s, e) == s
  {
  }

  function Run(s: AppState, events: seq<Event>): AppState
    decreases |events|
  {
    if events == [] then s else Run(Step(s, events[0]), events[1..])
  }

  /** The invariant holds after any sequence of events. */
  lemma {:induction false} RunPreservesInv(s: AppState, events: seq<Event>)
    requires Inv(s)
    ensures Inv(Run(s, events))
    decreases |events|
  {
    if events != [] {
      StepPreservesInv(s, events[0]);
      RunPreservesInv(Step(s, events[0]), events[1..]);
    }
  }

  /** Once raised, the overlay stays up until a ReportReady or a
      NavigateToHome event arrives: no other event lowers it. */
  lemma {:induction false} OverlayStaysUntilReadyOrHome(s: AppState, events: seq<Event>)
    requires s.isTransitioning
    requires forall i :: 0 <= i < |events| ==> !events[i].ReportReady? && !events[i].NavigateToHome?
    ensures Run(s, events).isTransitioning
    decreases |events|
  {
    if events != [] {
      OverlayStaysUntilReadyOrHome(Step(s, events[0]), events[1..]);
    }
  }

  /** Navigating home leaves the query and the persona as they were. */
  lemma NavigateToHomeKeepsQuery(s: AppState)
    ensures Step(s, NavigateToHome).searchQuery == s.searchQuery
    ensures Step(s, NavigateToHome).userType == s.userType
    ensures Step(s, NavigateToHome).currentScreen == SlideScreen
    ensures !Step(s, NavigateToHome).isTransitioning
  {
  }

  /** Signalling readiness only lowers the overlay, and doing it twice is
      the same as doing it once. */
  lemma ReportReadyIdempotent(s: AppState)
    requires Inv(s)
    ensures Step(Step(s, ReportReady), ReportReady) == Step(s, ReportReady)
    ensures Step(s, ReportReady) == s.(isTransitioning := false, loadingMessageIndex := 0)
  {
  }

  /** Three ticks bring the message back to the one it started from. */
  lemma ThreeTicksCycle(s: AppState)
    requires Inv(s) && s.isTransitioning
    ensures Run(s, [Tick, Tick, Tick]).loadingMessageIndex == s.loadingMessageIndex
  {
    assert Run(s, [Tick, Tick, Tick]) == Step(Step(Step(s, Tick), Tick), Tick) by {
      assert [Tick, Tick, Tick][1..] == [Tick, Tick];
      assert [Tick, Tick][1..] == [Tick];
    }
  }

  // ---------------------------------------------------------------------------
  // Rendering
  // ---------------------------------------------------------------------------

  /** The main view: the report (given the persona) or the landing screen. */
  datatype MainView = ReportPage(userType: UserType) | SlidePage

  datatype View = View(main: MainView, overlay: Option<string>)

  /** The rendered tree: an index outside the messages would render nothing,
      which is written here as the empty message. */
  function Render(s: AppState): (v: View)
    ensures v.main.ReportPage? <==> s.currentScreen == ReportScreen
    ensures v.main.ReportPage? ==> v.main.userType == s.userType
    ensures v.overlay.Some? <==> s.isTransitioning
    ensures Inv(s) && s.isTransitioning ==> v.overlay == Some(LoadingMessages[s.loadingMessageIndex])
  {
    var main := if s.currentScreen == ReportScreen then ReportPage(s.userType) else SlidePage;
    var message :=
      if 0 <= s.loadingMessageIndex < |LoadingMessages| then LoadingMessages[s.loadingMessageIndex] else "";
    View(main, if s.isTransitioning then Some(message) else None)
  }

  /** The landing screen's callback is `navigateToReport`. */
  function SlideCallback(effect: Slide.Effect): (e: Option<Event>)
    ensures effect.OnSearchClick? <==> e.Some?
    ensures effect.OnSearchClick? ==> e == Some(NavigateToReport(effect.query, effect.userType))
  {
    match effect
    case OnSearchClick(q, u) => Some(NavigateToReport(q, u))
    case _ => None
  }

  /** A journalist's search on the landing screen opens the report for that
      query: the report page renders the journalist data under the overlay,
      showing the current loading message. */
  lemma JournalistSearchOpensReport(s: AppState, slide: Slide.SlideState, settlement: Slide.Settlement)
    requires Inv(s)
    requires Slide.HasQuery(slide) && slide.userType == Journalist
    ensures var click := Slide.HandleSearchClick(slide, true, settlement);
      && SlideCallback(click.effect).Some?
      && var t := Step(s, SlideCallback(click.effect).value);
      && Render(t) == View(ReportPage(Journalist), Some(LoadingMessages[t.loadingMessageIndex]))
      && t.searchQuery == slide.searchQuery
      && Report.SelectData(Some(t.userType)) == JournalistAnalysis
  {
    Slide.HandleSearchClickCases(slide, true, settlement);
    var t := Step(s, NavigateToReport(slide.searchQuery, Journalist));
    StepPreservesInv(s, NavigateToReport(slide.searchQuery, Journalist));
  }
}
