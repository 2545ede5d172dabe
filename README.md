# Cluster assistant: session state machine and intent dispatcher

This project models the core of a Streamlit app that turns a natural-language request
into a Kubernetes operation. The app exists twice in the repository: as a single file
(`main.py`) and as the `app/` package. The two copies differ in small ways, and the
model takes a `Layout` parameter (`Monolith` or `Package`) wherever they do:

- only the single-file app has the `irrelevant` action and the `irrelevant_view` renderer;
- the single-file app writes the orange status colour as `color:orange;`, without a space;
- the single-file app reruns the script even when the intent is missing.

What is modelled:

- **Session store** (`State`, `SessionStore`). `st.session_state` is a map from key to
  value. The app's four keys are `current_view`, `service`, `logs` and `response_json`;
  other keys (widget state) may be present too. The class `SessionStore.Session` holds
  this map and updates it in place:
  - `Init` and `InitEachKey` are the two `initialize_session_state` implementations (a loop over a defaults dict, and four separate tests);
  - `Reset` is `go_to_main`;
  - `ProcessPrompt` is `process_main_prompt`;
  - `Run` is one script run: initialize, then route.
  Each method is proved against a function on the map (`Initialized`, `ResetState`,
  `Dispatch`, `Route`), and the properties are proved about those functions.
- **Intent** (`Intents`). The decoded JSON object has four keys. Each key may be absent,
  null, or hold a value. `intent.get(k)` and `intent.get(k, "default")` are kept apart,
  because the fallback applies only when the key is absent.
- **Dispatcher** (`MainView.Dispatch`). It stores the intent, then switches on the action
  string. Only the logs branch calls the cluster.
- **View guards** (`ScaleView`, `StatusView`). Each is a function from the stored intent
  to the one call the view makes, or to the warning it shows instead.
- **Router** (`Views.Route`). It maps the view string to at most one renderer.
- **Pod lookup** (`K8sService`). The first pod, in listing order, whose name contains the
  query is selected. The module also builds the found, NOT FOUND and API-error records and
  messages, and sums restart counts. `get_pod_status` and `get_logs` are linear-search
  methods.
- **Cluster** (`Cluster`). The cluster is input data. Listing pods, reading a log and
  patching a deployment's scale are functions that return `Ok` or `ApiError(reason)`;
  `ApiError` stands for a raised `ApiException`.

### Exceptions the code lets escape

The app does not catch these three errors. The model keeps them as the `Raised`
error case and does not treat them as handled. Cluster failures other than an
`ApiException` also escape; they are listed under "## Left out".

- **Null namespace.** For a present but null `namespace` key, `intent.get("namespace", "default")`
  returns None. The Kubernetes client library rejects `namespace=None` before sending any
  request. The error it raises is not an `ApiException`, so nothing catches it (`NullNamespace`).
- **Null service in the logs branch.** The logs branch passes a missing or null `service`
  straight to `get_logs`. Testing `None in name` raises TypeError, but only when the listing
  holds at least one pod (`NoneNotAString`). With no pods the message is "No pod found for None".
- **No stored intent in the scale or status view.** These views call `.get` on `response_json`.
  That fails if no intent was stored (`NoneHasNoGet`). `Views.Consistent` is an invariant the
  dispatcher and reset preserve, and it guarantees this failure never happens in a reachable session.

### Behaviour of the code worth knowing

- **Namespace default.** The namespace falls back to "default" only when the key is
  missing. A null namespace is passed on as None, and the logs fetch, the status lookup and
  the scale patch then raise (`MainView.DispatchLogsNullNamespace`).
- **Actions.** The only actions are `logs`, `scale`, `status` and, in the single-file app,
  `irrelevant`. There is no code-fence stripping and no per-field validation of the intent.
  In the package, `irrelevant` falls into "Unknown action".
- **When the cluster is called.** The dispatcher calls the cluster only for `logs`. The
  status lookup and the scale patch run when their view renders, behind the view's own guard,
  so a scale intent without replicas is caught by the view.

## Model

| member | source | states |
|---|---|---|
| `Python.ContainsIffOccurs` | app/services/k8s_service.py:12 | the substring test `q in name` holds exactly when `q` occurs at some position of `name` |
| `Python.Format` | app/services/k8s_service.py:33-35 | an f-string shows a string service as itself and None as "None" |
| `Python.ShowIntRoundTrip` | app/services/k8s_service.py:43 | the replica count written into "Scaled … to N replicas." reads back as exactly N |
| `Intents.Get` | app/views/main_view.py:17-18 | `intent.get(key)` is a value exactly when the key holds one; missing and null both give None |
| `Intents.NamespaceFallback` | app/views/status_view.py:11 | `intent.get("namespace", "default")` is None exactly for a null key, and differs from `get` exactly when the key is missing |
| `K8sService.Sum` | app/services/k8s_service.py:17 | the restart total bounds every container's count, and is 0 exactly when all counts are 0 |
| `K8sService.SumAppend` | app/services/k8s_service.py:17 | the total of two joined lists of restart counts is the sum of their totals |
| `K8sService.FirstMatch` | app/services/k8s_service.py:11-12 | the selected index is a pod whose name contains the query and no earlier pod's does; None means no pod's name does |
| `K8sService.GetPodStatus` | app/services/k8s_service.py:8-21 | the search loop returns the row of the first matching pod, NOT FOUND when none matches, an ERROR row on an API error, and raises on a null namespace |
| `K8sService.PodStatusFound` | app/services/k8s_service.py:13-18 | a found pod is reported with its full name, phase, node and the sum of its container restart counts (0 without container statuses) |
| `K8sService.PodStatusNotFound` | app/services/k8s_service.py:19 | with no match the row is {Pod: query, Status: "NOT FOUND", Node: "-", Restarts: "-"} |
| `K8sService.PodStatusApiError` | app/services/k8s_service.py:20-21 | an API error while listing gives {Pod: query, Status: "ERROR: " + reason, Node: "-", Restarts: "-"} and nothing is raised |
| `K8sService.GetLogs` | app/services/k8s_service.py:23-35 | the search loop returns the log of the first matching pod, the no-pod or error message, or raises exactly as the function model says |
| `K8sService.LogsReadFirstMatch` | app/services/k8s_service.py:26-32 | the log read is the first matching pod's, in the same namespace and with the given tail length; a failed read gives the error message |
| `K8sService.LogsMessages` | app/services/k8s_service.py:33-35 | "No pod found for {service}" when nothing matches, "Error fetching logs for {service}: {reason}" on a listing error |
| `K8sService.LogsNoneServiceNoPods` | app/services/k8s_service.py:25-33 | with a None service and an empty listing the loop never runs and the result is "No pod found for None" |
| `K8sService.LogsNoneServiceRaises` | app/services/k8s_service.py:26-27 | with a None service and at least one listed pod the substring test raises TypeError |
| `K8sService.EmptyQuerySelectsFirstPod` | app/services/k8s_service.py:27 | an empty service name matches every pod, so the first listed pod is chosen |
| `K8sService.ScaleReportsPatch` | app/services/k8s_service.py:37-45 | the result depends only on patching the deployment named exactly `service`, is "Scaled {service} to {replicas} replicas." when the patch succeeded and "Error scaling {service}: {reason}" on an API error, so it starts with "Scaled " exactly when the patch succeeded |
| `State.Initialized` | app/utils/state.py:3-11 | initialization adds each missing default key with its default and keeps every present key's value |
| `State.ResetState` | app/utils/state.py:13-17 | reset sets the view to "main" and the other three keys to None and leaves every other key alone |
| `State.InitIdempotent` | app/utils/state.py:10-11 | initializing twice gives the same session as initializing once |
| `State.InitKeepsPresentSession` | main.py:45-53 | once all four keys exist, initialization changes nothing |
| `State.ResetIsFreshSession` | app/utils/state.py:3-17 | after reset the four keys equal a freshly initialized session; the rest is the old session minus those keys |
| `State.ResetForgetsHistory` | main.py:150-154 | sessions that agree outside the four keys are equal after reset, whatever their prior view and data |
| `State.InitAfterReset` | app/utils/state.py:3-17 | initializing a reset session changes nothing |
| `Views.RouteExact` | app/main.py:10-17 | a renderer runs exactly when the view string names a screen the layout has, and it is that screen's |
| `Views.RouteNone` | main.py:250-259 | every other view value renders nothing, including "irrelevant_view" in the package |
| `Views.FreshSessionShowsMain` | app/main.py:8-11 | a session without the four keys is consistent after initialization and shows the main screen |
| `Views.ResetShowsMain` | main.py:150-154 | reset from any session gives a consistent session on the main screen |
| `Views.ConsistentSessionIsRendered` | app/main.py:8-17 | in a reachable session, initialization changes nothing and exactly one renderer runs |
| `MainView.ColorStatusCases` | main.py:75-82 | Running is green, NOT FOUND red, Pending orange (`color:orange;` in the single-file app, `color: orange;` in the package), any other status gets "" |
| `MainView.NextScreenExact` | main.py:166-177 | an action selects a screen exactly when it is that screen's action and the layout has the screen |
| `MainView.DispatchWithoutIntent` | main.py:160-161 | a missing or empty intent leaves the session unchanged |
| `MainView.DispatchStoresIntent` | app/views/main_view.py:16 | a non-empty intent is always stored in `response_json`, even when its action is unknown or the logs fetch raises |
| `MainView.DispatchUnknownAction` | app/views/main_view.py:29-30 | an unknown or missing action warns "Unknown action" and changes only `response_json` |
| `MainView.DispatchRoutesByAction` | main.py:170-175 | scale, status and (single file only) irrelevant store the intent and set their view, nothing else |
| `MainView.DispatchLogs` | app/views/main_view.py:20-24 | logs sets `service`, fetches with the intent's namespace ("default" only if the key is missing) and a tail of 100, stores the text and shows the logs view; if the fetch raises, the view and logs are unchanged |
| `MainView.DispatchLogsNullNamespace` | main.py:168 | a null namespace reaches the client, and the dispatch ends with that uncaught error before the logs view |
| `MainView.DispatchNoClusterCall` | main.py:166-175 | outside the logs action the result does not depend on the cluster, and `service` and `logs` are untouched |
| `MainView.DispatchKeepsOtherKeys` | app/views/main_view.py:16-28 | the dispatcher writes only the four session keys and removes none |
| `MainView.DispatchPreservesConsistent` | main.py:158-179 | a consistent session stays consistent after any dispatch |
| `ScaleView.ScaleGuard` | app/views/scale_view.py:9-17 | the patch is issued exactly when the service is a non-empty string and replicas holds a value, using the intent's service, replicas and namespace (the key's value even if null, else "default") |
| `ScaleView.ZeroReplicasPassGuard` | app/views/scale_view.py:13 | replicas = 0 passes the guard (`is not None`, not truthiness) |
| `ScaleView.ScalePageShowsIntent` | app/views/scale_view.py:13-18 | the intent is shown in both branches, and the banner is the warning exactly when no patch is issued |
| `ScaleView.ScaleAfterDispatch` | main.py:214-227 | after a scale prompt the router shows the scale view, and the view acts on exactly the dispatched intent |
| `ScaleView.ScaleViewSafeWhenConsistent` | app/views/scale_view.py:8-10 | in a reachable session on the scale view, reading the stored intent never fails |
| `ScaleView.ScaleCheckoutScenario` | main.py:222-224 | "scale checkoutservice to 3" in namespace default issues one patch with exactly those arguments |
| `StatusView.StatusGuard` | app/views/status_view.py:10-17 | the lookup runs exactly when the service is a non-empty string, with the namespace key's value or "default" |
| `StatusView.StatusWarnsWithoutCluster` | app/views/status_view.py:16-17 | without a truthy service the page is the warning plus the intent and does not depend on the cluster |
| `StatusView.StatusPageShowsIntent` | app/views/status_view.py:13-18 | the intent is shown in both branches; a lookup shows `get_pod_status`'s row |
| `StatusView.StatusAfterDispatch` | main.py:230-242 | after a status prompt the router shows the status view, and the view acts on exactly the dispatched intent |
| `StatusView.StatusViewSafeWhenConsistent` | app/views/status_view.py:9-11 | in a reachable session on the status view, reading the stored intent never fails |
| `SessionStore.Session.Init` | app/utils/state.py:3-11 | the loop over the defaults dict leaves exactly the initialized session |
| `SessionStore.Session.InitEachKey` | main.py:45-53 | the four separate presence tests give the same initialized session |
| `SessionStore.Session.Reset` | app/utils/state.py:13-18 | the four assignments leave exactly the reset session, which is consistent |
| `SessionStore.Session.ProcessPrompt` | app/views/main_view.py:11-31 | the in-place updates reach exactly the state and outcome of `Dispatch`, and keep the session consistent |
| `SessionStore.Session.Run` | app/main.py:8-17 | every run initializes before routing; a reachable session is left unchanged and rendered; a fresh one becomes consistent and shows the main screen |

## Left out

- Streamlit rendering: titles, forms, spinners, buttons, text areas, the data frame and its styling. `st.rerun()` is only the `rerun` flag of an outcome. `display_main_view`'s status table over the fixed service catalog is rendering and is not modelled.
- Kubernetes client setup. This covers the kubeconfig temporary file, secrets, `load_kube_config` and API object construction. Its failures stop the process before any session exists.
- The language-model calls: `get_gemini_intent`, `analyze_logs_with_gemini` and `app/services/gemini_service.py`. They are network calls. The extraction result is an input of type `Option<Intent>`, where None stands for a response that `json.loads` rejected.
- JSON that decodes to something other than an object. A falsy value (0, "", [], false) fails `if intent:` and leaves the session unchanged, as None does. A truthy one (a non-empty list, a non-zero number, a non-empty string) reaches `intent.get` and raises there. The model's intent is always an object, so neither case is represented except through None.
- JSON field types. `action`, `service` and `namespace` are strings and `replicas` is an integer. A field of another JSON type (a numeric service, a string or float replicas) is not modelled.
- `app/views/logs_view.py`. It renders the logs and makes a language-model follow-up call. It writes no session field.
- Pod phase, which is taken to be a string. An ApiException is represented only by its `reason`.
- Cluster failures that the client library does not raise as an `ApiException`, such as a connection failure, escape the `except ApiException` clauses of `get_pod_status`, `get_logs` and `scale_deployment`. `Cluster.Call` has no variant for them, so the model does not capture these escapes.
- The client library's rejection of a null namespace is taken as given. It is an error that is not an `ApiException`; the library's own code is not part of this model.
