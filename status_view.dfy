/**
 * `display_status_view`: reads the stored intent and looks up the pod status only when
 * the service is truthy; otherwise it warns. Either way the intent is shown.
 */
module StatusView {
  import opened Wrappers
  import opened Python
  import opened Intents
  import opened Cluster
  import opened K8sService
  import opened State
  import opened Views
  import opened MainView

  datatype StatusCommand = LookupStatus(service: string, namespace: Option<string>) | WarnNoService

  const MissingServiceWarning: string := "Could not determine service from the intent."

  /** What the page shows: the status dict or the warning; then the intent. */
  datatype StatusBody = StatusJson(row: StatusRow) | StatusWarning(text: string)
  datatype StatusPage = StatusPage(body: StatusBody, shown: Intent)

  /** Argument selection and guard: a truthy service, and the namespace key's value or "default". */
  function StatusCommandFor(responseJson: Value): Result<StatusCommand, Raised> {
    if !responseJson.IntentV? then Failure(NoneHasNoGet)
    else
      var i := responseJson.intent;
      var service := Get(i.service);
      if Truthy(service) then Success(LookupStatus(service.value, GetOr(i.namespace, "default")))
      else Success(WarnNoService)
  }

  function RenderStatus(responseJson: Value, cluster: Cluster): Result<StatusPage, Raised> {
    match StatusCommandFor(responseJson)
    case Failure(e) => Failure(e)
    case Success(WarnNoService) => Success(StatusPage(StatusWarning(MissingServiceWarning), responseJson.intent))
    case Success(LookupStatus(service, namespace)) =>
      match PodStatusFor(service, namespace, cluster)
      case Failure(e) => Failure(e)
      case Success(row) => Success(StatusPage(StatusJson(row), responseJson.intent))
  }

  /** The lookup runs exactly when the service is a non-empty string, with the defaulted namespace. */
  lemma StatusGuard(i: Intent)
    ensures StatusCommandFor(IntentV(i)).Success?
    ensures StatusCommandFor(IntentV(i)).value.LookupStatus? <==> i.service.Given? && i.service.value != ""
    ensures StatusCommandFor(IntentV(i)).value.LookupStatus? ==>
        StatusCommandFor(IntentV(i)).value
        == LookupStatus(i.service.value, if i.namespace.Absent? then Some("default") else Get(i.namespace))
  {
  }

  /** Without a truthy service the cluster is not consulted: the page does not depend on it. */
  lemma StatusWarnsWithoutCluster(i: Intent, c1: Cluster, c2: Cluster)
    requires !(i.service.Given? && i.service.value != "")
    ensures RenderStatus(IntentV(i), c1) == RenderStatus(IntentV(i), c2)
    ensures RenderStatus(IntentV(i), c1) == Success(StatusPage(StatusWarning(MissingServiceWarning), i))
  {
  }

  /** The intent is shown whichever branch runs; a lookup shows `get_pod_status`'s row. */
  lemma StatusPageShowsIntent(i: Intent, cluster: Cluster)
    requires RenderStatus(IntentV(i), cluster).Success?
    ensures RenderStatus(IntentV(i), cluster).value.shown == i
    ensures StatusCommandFor(IntentV(i)).value.LookupStatus? ==>
        var cmd := StatusCommandFor(IntentV(i)).value;
        RenderStatus(IntentV(i), cluster).value.body == StatusJson(PodStatusFor(cmd.service, cmd.namespace, cluster).value)
  {
  }

  /** After a status prompt the router shows this view and it acts on exactly the dispatched intent. */
  lemma StatusAfterDispatch(layout: Layout, m: map<string, Value>, i: Intent, cluster: Cluster)
    requires !IsEmpty(i) && Get(i.action) == Some("status")
    ensures var after := Dispatch(layout, m, Some(i), cluster).session;
      && Route(layout, after[CurrentView]) == Some(StatusScreen)
      && StatusCommandFor(after[ResponseJson]) == StatusCommandFor(IntentV(i))
  {
  }

  /** In a consistent session the status view never trips over a missing intent. */
  lemma StatusViewSafeWhenConsistent(layout: Layout, m: map<string, Value>)
    requires Consistent(layout, m) && m[CurrentView] == Str("status_view")
    ensures StatusCommandFor(m[ResponseJson]).Success?
  {
  }
}
