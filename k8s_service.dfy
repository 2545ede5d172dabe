/**
 * Pod lookup and result shaping around the Kubernetes calls: `get_pod_status`,
 * `get_logs` and `scale_deployment`. Both copies of the app (the single-file app
 * and the `app/` package) share this logic line for line.
 */
module K8sService {
  import opened Wrappers
  import opened Python
  import opened Cluster

  /** `tail_lines` when the caller gives none. */
  const TailLines: int := 100

  datatype Restarts = Count(total: nat) | Dash

  /** The dict `get_pod_status` returns: keys Pod, Status, Node, Restarts. */
  datatype StatusRow = StatusRow(pod: string, status: string, node: Option<string>, restarts: Restarts)

  /** `sum(...)` over restart counts. */
  function Sum(s: seq<nat>): (r: nat)
    ensures forall i :: 0 <= i < |s| ==> s[i] <= r
    ensures r == 0 <==> forall i :: 0 <= i < |s| ==> s[i] == 0
  {
    if |s| == 0 then 0 else s[0] + Sum(s[1..])
  }

  /** Sum adds up: the total of two lists of counts joined is the sum of their totals. */
  lemma {:induction false} SumAppend(a: seq<nat>, b: seq<nat>)
    ensures Sum(a + b) == Sum(a) + Sum(b)
    decreases |a|
  {
    if |a| == 0 {
      assert a + b == b;
    } else {
      assert (a + b)[1..] == a[1..] + b;
      SumAppend(a[1..], b);
    }
  }

  /** Index of the first pod, in listing order, whose name contains `q`. */
  function FirstMatch(q: string, pods: seq<Pod>): (r: Option<nat>)
    ensures r.Some? ==> r.value < |pods| && Contains(pods[r.value].name, q)
    ensures r.Some? ==> forall j :: 0 <= j < r.value ==> !Contains(pods[j].name, q)
    ensures r.None? ==> forall j :: 0 <= j < |pods| ==> !Contains(pods[j].name, q)
  {
    if |pods| == 0 then None
    else if Contains(pods[0].name, q) then Some(0)
    else match FirstMatch(q, pods[1..])
      case None => None
      case Some(i) => Some(i + 1)
  }

  function FoundRow(p: Pod): StatusRow {
    StatusRow(p.name, p.phase, p.nodeName, Count(Sum(p.containerStatuses.GetOr([]))))
  }

  function NotFoundRow(podName: string): StatusRow {
    StatusRow(podName, "NOT FOUND", Some("-"), Dash)
  }

  function ErrorRow(podName: string, reason: string): StatusRow {
    StatusRow(podName, "ERROR: " + reason, Some("-"), Dash)
  }

  /** What `get_pod_status(pod_name, namespace)` returns or raises. */
  function PodStatusFor(podName: string, namespace: Option<string>, cluster: Cluster): Result<StatusRow, Raised> {
    if namespace.None? then Failure(NullNamespace)
    else match cluster.listPods(namespace.value)
      case ApiError(reason) => Success(ErrorRow(podName, reason))
      case Ok(pods) =>
        match FirstMatch(podName, pods)
        case Some(i) => Success(FoundRow(pods[i]))
        case None => Success(NotFoundRow(podName))
  }

  /** `get_pod_status`: a linear search over the listed pods that returns at the first match. */
  method GetPodStatus(podName: string, namespace: Option<string>, cluster: Cluster) returns (r: Result<StatusRow, Raised>)
    ensures r == PodStatusFor(podName, namespace, cluster)
  {
    if namespace.None? {
      return Failure(NullNamespace);
    }
    var listing := cluster.listPods(namespace.value);
    if listing.ApiError? {
      return Success(ErrorRow(podName, listing.reason));
    }
    var pods := listing.value;
    var i := 0;
    while i < |pods|
      invariant 0 <= i <= |pods|
      invariant forall j :: 0 <= j < i ==> !Contains(pods[j].name, podName)
    {
      if Contains(pods[i].name, podName) {
        return Success(FoundRow(pods[i]));
      }
      i := i + 1;
    }
    return Success(NotFoundRow(podName));
  }

  /** A found pod is reported with its full name, phase, node and summed restart counts. */
  lemma PodStatusFound(podName: string, ns: string, cluster: Cluster, pods: seq<Pod>, i: nat)
    requires cluster.listPods(ns) == Ok(pods)
    requires i < |pods| && Contains(pods[i].name, podName)
    requires forall j :: 0 <= j < i ==> !Contains(pods[j].name, podName)
    ensures PodStatusFor(podName, Some(ns), cluster).Success?
    ensures var row := PodStatusFor(podName, Some(ns), cluster).value;
      && row.pod == pods[i].name && row.status == pods[i].phase && row.node == pods[i].nodeName
      && row.restarts == Count(Sum(pods[i].containerStatuses.GetOr([])))
      && (pods[i].containerStatuses.None? ==> row.restarts.total == 0)
      && (forall c :: c in pods[i].containerStatuses.GetOr([]) ==> c <= row.restarts.total)
  {
  }

  /** No pod name contains the query: the query itself is reported as NOT FOUND. */
  lemma PodStatusNotFound(podName: string, ns: string, cluster: Cluster, pods: seq<Pod>)
    requires cluster.listPods(ns) == Ok(pods)
    requires forall j :: 0 <= j < |pods| ==> !Contains(pods[j].name, podName)
    ensures PodStatusFor(podName, Some(ns), cluster)
         == Success(StatusRow(podName, "NOT FOUND", Some("-"), Dash))
  {
  }

  /** An ApiException while listing becomes an ERROR row; nothing is raised. */
  lemma PodStatusApiError(podName: string, ns: string, cluster: Cluster, reason: string)
    requires cluster.listPods(ns) == ApiError(reason)
    ensures PodStatusFor(podName, Some(ns), cluster)
         == Success(StatusRow(podName, "ERROR: " + reason, Some("-"), Dash))
  {
  }

  function NoPodMessage(service: Option<string>): string {
    "No pod found for " + Format(service)
  }

  function FetchErrorMessage(service: Option<string>, reason: string): string {
    "Error fetching logs for " + Format(service) + ": " + reason
  }

  /**
   * What `get_logs(service, namespace, tail_lines)` returns or raises. A None service
   * raises only once the loop looks at a pod: with no pods the message names "None".
   */
  function LogsFor(service: Option<string>, namespace: Option<string>, tailLines: int, cluster: Cluster): Result<string, Raised> {
    if namespace.None? then Failure(NullNamespace)
    else match cluster.listPods(namespace.value)
      case ApiError(reason) => Success(FetchErrorMessage(service, reason))
      case Ok(pods) =>
        if |pods| == 0 then Success(NoPodMessage(service))
        else if service.None? then Failure(NoneNotAString)
        else match FirstMatch(service.value, pods)
          case None => Success(NoPodMessage(service))
          case Some(i) =>
            match cluster.readLog(pods[i].name, namespace.value, tailLines)
            case Ok(text) => Success(text)
            case ApiError(reason) => Success(FetchErrorMessage(service, reason))
  }

  /** `get_logs`: the same linear search, reading the log of the first match. */
  method GetLogs(service: Option<string>, namespace: Option<string>, tailLines: int, cluster: Cluster) returns (r: Result<string, Raised>)
    ensures r == LogsFor(service, namespace, tailLines, cluster)
  {
    if namespace.None? {
      return Failure(NullNamespace);
    }
    var ns := namespace.value;
    var listing := cluster.listPods(ns);
    if listing.ApiError? {
      return Success(FetchErrorMessage(service, listing.reason));
    }
    var pods := listing.value;
    var i := 0;
    while i < |pods|
      invariant 0 <= i <= |pods|
      invariant service.None? ==> i == 0
      invariant service.Some? ==> forall j :: 0 <= j < i ==> !Contains(pods[j].name, service.value)
    {
      if service.None? {
        return Failure(NoneNotAString);
      }
      if Contains(pods[i].name, service.value) {
        var read := cluster.readLog(pods[i].name, ns, tailLines);
        if read.ApiError? {
          return Success(FetchErrorMessage(service, read.reason));
        }
        return Success(read.value);
      }
      i := i + 1;
    }
    return Success(NoPodMessage(service));
  }

  /** The log read is that of the first matching pod, in the same namespace, with the given tail length. */
  lemma LogsReadFirstMatch(service: string, ns: string, tailLines: int, cluster: Cluster, pods: seq<Pod>, i: nat)
    requires cluster.listPods(ns) == Ok(pods)
    requires i < |pods| && Contains(pods[i].name, service)
    requires forall j :: 0 <= j < i ==> !Contains(pods[j].name, service)
    ensures LogsFor(Some(service), Some(ns), tailLines, cluster)
         == match cluster.readLog(pods[i].name, ns, tailLines)
            case Ok(text) => Success(text)
            case ApiError(reason) => Success("Error fetching logs for " + service + ": " + reason)
  {
  }

  /** The two messages `get_logs` builds itself, for a string service. */
  lemma LogsMessages(service: string, ns: string, tailLines: int, cluster: Cluster)
    ensures (forall reason :: cluster.listPods(ns) == ApiError(reason) ==>
               LogsFor(Some(service), Some(ns), tailLines, cluster)
               == Success("Error fetching logs for " + service + ": " + reason))
    ensures (cluster.listPods(ns).Ok?
             && forall j :: 0 <= j < |cluster.listPods(ns).value| ==> !Contains(cluster.listPods(ns).value[j].name, service))
            ==> LogsFor(Some(service), Some(ns), tailLines, cluster) == Success("No pod found for " + service)
  {
  }

  /** With a None service and no pods the loop never runs, so the message names "None". */
  lemma LogsNoneServiceNoPods(ns: string, tailLines: int, cluster: Cluster)
    requires cluster.listPods(ns) == Ok([])
    ensures LogsFor(None, Some(ns), tailLines, cluster) == Success("No pod found for None")
  {
    assert NoPodMessage(None) == "No pod found for " + "None" == "No pod found for None";
    assert LogsFor(None, Some(ns), tailLines, cluster) == Success(NoPodMessage(None));
  }

  /** With a None service and at least one pod, the substring test raises TypeError. */
  lemma LogsNoneServiceRaises(ns: string, tailLines: int, cluster: Cluster)
    requires cluster.listPods(ns).Ok? && |cluster.listPods(ns).value| > 0
    ensures LogsFor(None, Some(ns), tailLines, cluster) == Failure(NoneNotAString)
  {
  }

  /** An empty query is contained in every name, so it selects the first listed pod. */
  lemma EmptyQuerySelectsFirstPod(pods: seq<Pod>)
    requires |pods| > 0
    ensures FirstMatch("", pods) == Some(0)
  {
  }

  /** What `scale_deployment(service, replicas, namespace)` returns or raises. */
  function ScaleFor(service: string, replicas: int, namespace: Option<string>, cluster: Cluster): Result<string, Raised> {
    if namespace.None? then Failure(NullNamespace)
    else match cluster.patchScale(service, namespace.value, replicas)
      case Ok(_) => Success("Scaled " + service + " to " + ShowInt(replicas) + " replicas.")
      case ApiError(reason) => Success("Error scaling " + service + ": " + reason)
  }

  /**
   * The scale patch names the deployment exactly `service` (no pod lookup), and the message
   * says which way it went: it starts with "Scaled " exactly when the patch succeeded.
   */
  lemma ScaleReportsPatch(service: string, replicas: int, ns: string, c1: Cluster, c2: Cluster)
    requires c1.patchScale(service, ns, replicas) == c2.patchScale(service, ns, replicas)
    ensures ScaleFor(service, replicas, Some(ns), c1) == ScaleFor(service, replicas, Some(ns), c2)
    ensures ScaleFor(service, replicas, Some(ns), c1).Success?
    ensures "Scaled " <= ScaleFor(service, replicas, Some(ns), c1).value
            <==> c1.patchScale(service, ns, replicas).Ok?
    ensures c1.patchScale(service, ns, replicas).Ok? ==>
      ScaleFor(service, replicas, Some(ns), c1) == Success("Scaled " + service + " to " + ShowInt(replicas) + " replicas.")
    ensures c1.patchScale(service, ns, replicas).ApiError? ==>
      ScaleFor(service, replicas, Some(ns), c1)
      == Success("Error scaling " + service + ": " + c1.patchScale(service, ns, replicas).reason)
  {
    if c1.patchScale(service, ns, replicas).ApiError? {
      var msg := ScaleFor(service, replicas, Some(ns), c1).value;
      assert msg[0] == 'E';
    }
  }
}
