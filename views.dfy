/**
 * The screens of the app and the top-level router that picks one renderer from
 * `current_view`. The single-file app (`main.py`) and the `app/` package differ
 * only in whether the "irrelevant" screen exists.
 */
module Views {
  import opened Wrappers
  import opened State

  /** Which copy of the app: the single-file `main.py`, or the `app/` package. */
  datatype Layout = Monolith | Package

  datatype Screen = MainScreen | LogsScreen | ScaleScreen | StatusScreen | IrrelevantScreen

  /** The `current_view` string that selects a screen. */
  function ViewName(s: Screen): string {
    match s
    case MainScreen => HomeView
    case LogsScreen => "logs_view"
    case ScaleScreen => "scale_view"
    case StatusScreen => "status_view"
    case IrrelevantScreen => "irrelevant_view"
  }

  /** The package has no renderer (and no action) for the irrelevant screen. */
  predicate HasScreen(layout: Layout, s: Screen) {
    s != IrrelevantScreen || layout == Monolith
  }

  /** The if/elif chain over `st.session_state.current_view`. */
  function Route(layout: Layout, view: Value): Option<Screen> {
    if view == Str("main") then Some(MainScreen)
    else if view == Str("logs_view") then Some(LogsScreen)
    else if view == Str("scale_view") then Some(ScaleScreen)
    else if view == Str("status_view") then Some(StatusScreen)
    else if layout == Monolith && view == Str("irrelevant_view") then Some(IrrelevantScreen)
    else None
  }

  /** A renderer runs exactly when the view names a screen the layout has, and it is that screen's. */
  lemma RouteExact(layout: Layout, view: Value, s: Screen)
    ensures Route(layout, view) == Some(s) <==> view == Str(ViewName(s)) && HasScreen(layout, s)
  {
  }

  /** Any other value, in particular "irrelevant_view" in the package, renders nothing. */
  lemma RouteNone(layout: Layout, view: Value)
    ensures Route(layout, view).None? <==> forall s: Screen :: !(view == Str(ViewName(s)) && HasScreen(layout, s))
  {
    if Route(layout, view).Some? {
      RouteExact(layout, view, Route(layout, view).value);
    } else {
      forall s: Screen
        ensures !(view == Str(ViewName(s)) && HasScreen(layout, s))
      {
        RouteExact(layout, view, s);
      }
    }
  }

  /**
   * The invariant of every session the app can reach: the four keys are present, the
   * view has a renderer, and off the home screen the stored intent is an object.
   */
  predicate Consistent(layout: Layout, m: map<string, Value>) {
    && DefaultKeys() <= m.Keys
    && Route(layout, m[CurrentView]).Some?
    && (m[CurrentView] != Str(HomeView) ==> m[ResponseJson].IntentV?)
  }

  /** A session that has none of the four keys yet starts on the home screen. */
  lemma FreshSessionShowsMain(layout: Layout, m: map<string, Value>)
    requires forall k :: k in DefaultKeys() ==> k !in m
    ensures Consistent(layout, Initialized(m))
    ensures Route(layout, Initialized(m)[CurrentView]) == Some(MainScreen)
  {
    assert CurrentView in DefaultKeys();
  }

  /** Reset always lands on a consistent home screen. */
  lemma ResetShowsMain(layout: Layout, m: map<string, Value>)
    ensures Consistent(layout, ResetState(m))
    ensures Route(layout, ResetState(m)[CurrentView]) == Some(MainScreen)
  {
    assert CurrentView in DefaultKeys();
  }

  /** In a consistent session, initializing before routing changes nothing and some renderer runs. */
  lemma ConsistentSessionIsRendered(layout: Layout, m: map<string, Value>)
    requires Consistent(layout, m)
    ensures Initialized(m) == m
    ensures Route(layout, Initialized(m)[CurrentView]).Some?
  {
    InitKeepsPresentSession(m);
  }
}
