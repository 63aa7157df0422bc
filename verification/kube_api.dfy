/**
 * The parts of the Kubernetes API objects (core/v1 Pod, autoscaling/v2beta1
 * HorizontalPodAutoscaler) that the watchers read, as immutable values.
 *
 * Instants that are only compared are opaque ordered integers, with 0 standing
 * for Go's zero time. Instants that are only printed (a container's StartedAt
 * and FinishedAt) are carried as the text that fmt renders for them.
 */
module KubeApi {
  import opened Wrappers

  type Instant = int

  /** metav1.Time's zero value (IsZero). */
  const ZeroInstant: Instant := 0

  datatype WaitingState = WaitingState(reason: string, message: string)

  datatype RunningState = RunningState(startedAt: string)

  datatype TerminatedState = TerminatedState(
    exitCode: int, signal: int, reason: string, message: string, finishedAt: string)

  /** v1.ContainerState: three optional members; more than one may be set. */
  datatype ContainerState = ContainerState(
    waiting: Option<WaitingState>,
    running: Option<RunningState>,
    terminated: Option<TerminatedState>)

  datatype ContainerStatus = ContainerStatus(
    name: string, state: ContainerState, ready: bool, restartCount: int)

  datatype PodCondition = PodCondition(condType: string, status: string, lastTransitionTime: Instant)

  datatype OwnerReference = OwnerReference(kind: string, name: string)

  datatype PodStatus = PodStatus(
    conditions: seq<PodCondition>,
    initContainerStatuses: seq<ContainerStatus>,
    containerStatuses: seq<ContainerStatus>)

  /**
   * A pod. A nil annotation map is the empty map here: the code only ever looks
   * keys up in it, and a lookup in a nil map yields "" just as a missing key does.
   */
  datatype Pod = Pod(
    name: string,
    namespace: string,
    uid: string,
    annotations: map<string, string>,
    ownerReferences: seq<OwnerReference>,
    creationTimestamp: Instant,
    status: PodStatus)

  datatype HpaStatus = HpaStatus(currentReplicas: int, desiredReplicas: int)

  datatype HorizontalPodAutoscaler = HorizontalPodAutoscaler(
    annotations: map<string, string>,
    creationTimestamp: Instant,
    status: HpaStatus)

  /** A Go map index expression on map[string]string: "" for a missing key. */
  function Lookup(m: map<string, string>, key: string): string
  {
    if key in m then m[key] else ""
  }
}
