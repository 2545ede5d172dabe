/**
 * `display_scale_view`: reads the stored intent, and issues the scale patch only when
 * the service is truthy and replicas is not None; otherwise it warns. Either way the
 * intent is shown.
 */
module ScaleView {
  import opened Wrappers
  import opened Python
  import opened Intents
  import opened Cluster
  import opened K8sService
  import opened State
  import opened Views
  import opened MainView

  /** The one outgoing call the view may make, or the warning it shows instead. */
  datatype ScaleCommand = ScaleCall(service: string, replicas: int, namespace: Option<string>) | WarnMissing

  const MissingFieldsWarning: string := "Could not determine service or replicas from the intent."

  /** What the page shows: a success banner with the message, or the warning; then the intent. */
  datatype Banner = SuccessBanner(text: string) | WarningBanner(text: string)
  datatype ScalePage = ScalePage(banner: Banner, shown: Intent)

  /** Argument selection and guard. `service` must be truthy; `replicas` only must not be None. */
  function ScaleCommandFor(responseJson: Value): Result<ScaleCommand, Raised> {
    if !responseJson.IntentV? then Failure(NoneHasNoGet)
    else
      var i := responseJson.intent;
      var service := Get(i.service);
      var replicas := Get(i.replicas);
      var namespace := GetOr(i.namespace, "default");
      if Truthy(service) && replicas.Some? then Success(ScaleCall(service.value, replicas.value, namespace))
      else Success(WarnMissing)
  }

  /** The page the view renders, after running its command against the cluster. */
  function RenderScale(responseJson: Value, cluster: Cluster): Result<ScalePage, Raised> {
    match ScaleCommandFor(responseJson)
    case Failure(e) => Failure(e)
    case Success(WarnMissing) => Success(ScalePage(WarningBanner(MissingFieldsWarning), responseJson.intent))
    case Success(ScaleCall(service, replicas, namespace)) =>
      match ScaleFor(service, replicas, namespace, cluster)
      case Failure(e) => Failure(e)
      case Success(msg) => Success(ScalePage(SuccessBanner(msg), responseJson.intent))
  }

  /**
   * The scale patch is issued exactly when the service is a non-empty string and the replicas
   * key holds a value, with exactly the intent's service, replicas and namespace (the namespace
   * key's value when present, even null, otherwise "default").
   */
  lemma ScaleGuard(i: Intent)
    ensures ScaleCommandFor(IntentV(i)).Success?
    ensures ScaleCommandFor(IntentV(i)).value.ScaleCall?
        <==> i.service.Given? && i.service.value != "" && i.replicas.Given?
    ensures ScaleCommandFor(IntentV(i)).value.ScaleCall? ==>
        ScaleCommandFor(IntentV(i)).value
        == ScaleCall(i.service.value, i.replicas.value, if i.namespace.Absent? then Some("default") else Get(i.namespace))
  {
  }

  /** Zero replicas pass the guard: the test is `is not None`, not truthiness. */
  lemma ZeroReplicasPassGuard(i: Intent)
    requires i.service.Given? && i.service.value != "" && i.replicas == Given(0)
    ensures ScaleCommandFor(IntentV(i)) == Success(ScaleCall(i.service.value, 0, GetOr(i.namespace, "default")))
  {
  }

  /** The intent is shown whichever branch runs, and the banner reports the patch outcome. */
  lemma ScalePageShowsIntent(i: Intent, cluster: Cluster)
    requires RenderScale(IntentV(i), cluster).Success?
    ensures RenderScale(IntentV(i), cluster).value.shown == i
    ensures RenderScale(IntentV(i), cluster).value.banner.WarningBanner?
        <==> ScaleCommandFor(IntentV(i)) == Success(WarnMissing)
  {
  }

  /** After a scale prompt the router shows this view and it acts on exactly the dispatched intent. */
  lemma ScaleAfterDispatch(layout: Layout, m: map<string, Value>, i: Intent, cluster: Cluster)
    requires !IsEmpty(i) && Get(i.action) == Some("scale")
    ensures var after := Dispatch(layout, m, Some(i), cluster).session;
      && Route(layout, after[CurrentView]) == Some(ScaleScreen)
      && ScaleCommandFor(after[ResponseJson]) == ScaleCommandFor(IntentV(i))
  {
  }

  /** In a consistent session the scale view never trips over a missing intent. */
  lemma ScaleViewSafeWhenConsistent(layout: Layout, m: map<string, Value>)
    requires Consistent(layout, m) && m[CurrentView] == Str("scale_view")
    ensures ScaleCommandFor(m[ResponseJson]).Success?
  {
  }

  /** "scale checkoutservice to 3" with the namespace given: exactly one patch, with those arguments. */
  lemma ScaleCheckoutScenario()
    ensures ScaleCommandFor(IntentV(Intent(Given("scale"), Given("checkoutservice"), Given("default"), Given(3), false)))
         == Success(ScaleCall("checkoutservice", 3, Some("default")))
  {
  }
}
