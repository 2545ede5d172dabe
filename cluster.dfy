/**
 * The Kubernetes API as the app sees it, taken as input data: what listing the pods
 * of a namespace returns, what reading a pod's log returns, and whether patching a
 * deployment's scale succeeds. `ApiError` stands for a raised `ApiException`.
 */
module Cluster {
  import opened Wrappers

  /** The fields of a listed pod that the app reads. */
  datatype Pod = Pod(
    name: string,                       // pod.metadata.name
    phase: string,                      // pod.status.phase
    nodeName: Option<string>,           // pod.spec.node_name (None before scheduling)
    containerStatuses: Option<seq<nat>>) // restart_count of each entry of pod.status.container_statuses

  datatype Call<+T> = Ok(value: T) | ApiError(reason: string)

  datatype Cluster = Cluster(
    listPods: string -> Call<seq<Pod>>,               // list_namespaced_pod(namespace)
    readLog: (string, string, int) -> Call<string>,   // read_namespaced_pod_log(name, namespace, tail_lines)
    patchScale: (string, string, int) -> Call<()>)    // patch_namespaced_deployment_scale(name, namespace, replicas)
}
