/**
 * The home screen's logic: colouring a pod status, and `process_main_prompt`, which
 * stores the extracted intent and switches on its action to pick the next screen.
 */
module MainView {
  import opened Wrappers
  import opened Python
  import opened Intents
  import opened Cluster
  import opened K8sService
  import opened State
  import opened Views

  /** `color_status`: the CSS for a Status cell. The single-file app writes orange without a space. */
  function ColorStatus(layout: Layout, status: string): string {
    if status == "Running" then "color: green;"
    else if status == "NOT FOUND" then "color: red;"
    else if status == "Pending" then (if layout == Monolith then "color:orange;" else "color: orange;")
    else ""
  }

  lemma ColorStatusCases(layout: Layout, status: string)
    ensures status == "Running" ==> ColorStatus(layout, status) == "color: green;"
    ensures status == "NOT FOUND" ==> ColorStatus(layout, status) == "color: red;"
    ensures status == "Pending" ==>
      ColorStatus(layout, status) == if layout == Monolith then "color:orange;" else "color: orange;"
    ensures ColorStatus(layout, status) == "" <==> status !in {"Running", "NOT FOUND", "Pending"}
  {
  }

  /** The action string that leads to each screen other than home. */
  function ActionOf(s: Screen): Option<string> {
    match s
    case MainScreen => None
    case LogsScreen => Some("logs")
    case ScaleScreen => Some("scale")
    case StatusScreen => Some("status")
    case IrrelevantScreen => Some("irrelevant")
  }

  /** The if/elif chain over `intent.get("action")`. */
  function NextScreen(layout: Layout, action: Option<string>): Option<Screen> {
    if action == Some("logs") then Some(LogsScreen)
    else if action == Some("scale") then Some(ScaleScreen)
    else if action == Some("status") then Some(StatusScreen)
    else if layout == Monolith && action == Some("irrelevant") then Some(IrrelevantScreen)
    else None
  }

  /** An action selects a screen exactly when it is that screen's action and the layout has the screen. */
  lemma NextScreenExact(layout: Layout, action: Option<string>, s: Screen)
    ensures NextScreen(layout, action) == Some(s)
        <==> action.Some? && action == ActionOf(s) && HasScreen(layout, s)
  {
  }

  const UnknownAction: string := "Unknown action"

  /** How one call of `process_main_prompt` ends: normally (with an optional warning, and whether it reruns), or with an escaping exception. */
  datatype Outcome = Finished(warning: Option<string>, rerun: bool) | Crashed(error: Raised)

  datatype Step = Step(session: map<string, Value>, outcome: Outcome)

  /** A string-or-None as a session value. */
  function ServiceValue(o: Option<string>): Value {
    match o
    case Some(s) => Str(s)
    case None => NoneV
  }

  /**
   * `process_main_prompt` once the intent has been extracted (None when extraction or
   * JSON decoding failed). Only the logs branch reaches the cluster.
   */
  function Dispatch(layout: Layout, m: map<string, Value>, intent: Option<Intent>, cluster: Cluster): Step {
    if intent.None? || IsEmpty(intent.value) then Step(m, Finished(None, layout == Monolith))
    else
      var i := intent.value;
      var stored := m[ResponseJson := IntentV(i)];
      match NextScreen(layout, Get(i.action))
      case None => Step(stored, Finished(Some(UnknownAction), true))
      case Some(s) =>
        if s == LogsScreen then
          var service := Get(i.service);
          var focused := stored[Service := ServiceValue(service)];
          match LogsFor(service, GetOr(i.namespace, "default"), TailLines, cluster)
          case Failure(e) => Step(focused, Crashed(e))
          case Success(text) => Step(focused[Logs := Str(text)][CurrentView := Str(ViewName(s))], Finished(None, true))
        else
          Step(stored[CurrentView := Str(ViewName(s))], Finished(None, true))
  }

  /** A missing or empty intent leaves the session exactly as it was. */
  lemma DispatchWithoutIntent(layout: Layout, m: map<string, Value>, intent: Option<Intent>, cluster: Cluster)
    requires intent.None? || IsEmpty(intent.value)
    ensures Dispatch(layout, m, intent, cluster).session == m
    ensures Dispatch(layout, m, intent, cluster).outcome.Finished?
  {
  }

  /** Any non-empty intent is stored as `response_json`, whatever its action and even if the logs fetch raises. */
  lemma DispatchStoresIntent(layout: Layout, m: map<string, Value>, i: Intent, cluster: Cluster)
    requires !IsEmpty(i)
    ensures ResponseJson in Dispatch(layout, m, Some(i), cluster).session
    ensures Dispatch(layout, m, Some(i), cluster).session[ResponseJson] == IntentV(i)
  {
  }

  /** An unrecognised action (including a missing one) warns and changes nothing but `response_json`. */
  lemma DispatchUnknownAction(layout: Layout, m: map<string, Value>, i: Intent, cluster: Cluster)
    requires !IsEmpty(i)
    requires Get(i.action) !in {Some("logs"), Some("scale"), Some("status")}
    requires layout == Package || Get(i.action) != Some("irrelevant")
    ensures Dispatch(layout, m, Some(i), cluster).session == m[ResponseJson := IntentV(i)]
    ensures Dispatch(layout, m, Some(i), cluster).outcome == Finished(Some("Unknown action"), true)
  {
  }

  /** The scale, status and (single-file app only) irrelevant actions only switch the view. */
  lemma DispatchRoutesByAction(layout: Layout, m: map<string, Value>, i: Intent, cluster: Cluster)
    requires !IsEmpty(i)
    ensures Get(i.action) == Some("scale") ==>
      Dispatch(layout, m, Some(i), cluster).session == m[ResponseJson := IntentV(i)][CurrentView := Str("scale_view")]
    ensures Get(i.action) == Some("status") ==>
      Dispatch(layout, m, Some(i), cluster).session == m[ResponseJson := IntentV(i)][CurrentView := Str("status_view")]
    ensures layout == Monolith && Get(i.action) == Some("irrelevant") ==>
      Dispatch(layout, m, Some(i), cluster).session == m[ResponseJson := IntentV(i)][CurrentView := Str("irrelevant_view")]
  {
  }

  /**
   * The logs action records the service, fetches the logs of the first matching pod with
   * the intent's namespace ("default" only when the key is missing) and 100 lines of tail,
   * and switches to the logs view; if the fetch raises, the view and logs stay as they were.
   */
  lemma DispatchLogs(layout: Layout, m: map<string, Value>, i: Intent, cluster: Cluster)
    requires !IsEmpty(i) && Get(i.action) == Some("logs")
    ensures var step := Dispatch(layout, m, Some(i), cluster);
      var fetched := LogsFor(Get(i.service), GetOr(i.namespace, "default"), 100, cluster);
      && Service in step.session && step.session[Service] == ServiceValue(Get(i.service))
      && (fetched.Success? ==>
            step.session == m[ResponseJson := IntentV(i)][Service := ServiceValue(Get(i.service))]
                             [Logs := Str(fetched.value)][CurrentView := Str("logs_view")])
      && (fetched.Failure? ==>
            step.session == m[ResponseJson := IntentV(i)][Service := ServiceValue(Get(i.service))]
            && step.outcome == Crashed(fetched.error))
  {
  }

  /** A null namespace is passed through to the client, which rejects it: the logs view is not reached. */
  lemma DispatchLogsNullNamespace(layout: Layout, m: map<string, Value>, i: Intent, cluster: Cluster)
    requires !IsEmpty(i) && Get(i.action) == Some("logs") && i.namespace.Null?
    ensures Dispatch(layout, m, Some(i), cluster).outcome == Crashed(NullNamespace)
    ensures Dispatch(layout, m, Some(i), cluster).session
         == m[ResponseJson := IntentV(i)][Service := ServiceValue(Get(i.service))]
  {
  }

  /** Outside the logs action the cluster is not consulted, and `service` and `logs` are untouched. */
  lemma DispatchNoClusterCall(layout: Layout, m: map<string, Value>, intent: Option<Intent>, c1: Cluster, c2: Cluster)
    requires intent.Some? ==> Get(intent.value.action) != Some("logs")
    ensures Dispatch(layout, m, intent, c1) == Dispatch(layout, m, intent, c2)
    ensures var after := Dispatch(layout, m, intent, c1).session;
      forall k :: k != CurrentView && k != ResponseJson ==>
        (k in after <==> k in m) && (k in m ==> after[k] == m[k])
  {
  }

  /** The dispatcher writes only the four session keys. */
  lemma DispatchKeepsOtherKeys(layout: Layout, m: map<string, Value>, intent: Option<Intent>, cluster: Cluster)
    ensures var after := Dispatch(layout, m, intent, cluster).session;
      && after.Keys <= m.Keys + DefaultKeys()
      && m.Keys <= after.Keys
      && forall k :: k in m && k !in DefaultKeys() ==> after[k] == m[k]
  {
  }

  /** Dispatching from a consistent session yields a consistent session. */
  lemma DispatchPreservesConsistent(layout: Layout, m: map<string, Value>, intent: Option<Intent>, cluster: Cluster)
    requires Consistent(layout, m)
    ensures Consistent(layout, Dispatch(layout, m, intent, cluster).session)
  {
    if intent.Some? && !IsEmpty(intent.value) {
      var i := intent.value;
      match NextScreen(layout, Get(i.action))
      case None =>
      case Some(s) =>
        NextScreenExact(layout, Get(i.action), s);
        RouteExact(layout, Str(ViewName(s)), s);
    }
  }
}
