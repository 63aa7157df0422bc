# kubeobserver, modelled in Dafny

kubeobserver watches a Kubernetes cluster and reports pod and
HorizontalPodAutoscaler (HPA) events to receivers such as Slack. This project
models the deterministic logic between the informers and the receivers, and
proves properties of it:

- the pod watcher: rendering container states, diffing container statuses by
  name, the ignore/exclude filter, and the decision whether an Add, Delete or
  Update event is sent (the update-watch annotation and the CrashLoopBackOff
  override);
- the HPA watcher: the replica-trend classifier over (old current, old desired,
  new current, new desired) and the send decision;
- the generic controller: an abstract rate-limited work queue as a class, the
  retry policy of `handleErr`, `processNextItem`, `runWorker` and its
  termination, the sequential fan-out to receivers and the wait on their
  channels;
- the receiver list built from the `kubeobserver.io/receivers` annotation;
- the pod-condition summariser of the k8s client package;
- the environment configuration, as a class whose fields the initialiser sets.

Modules:
- `Wrappers`: Option, Result and Outcome.
- `Strings`: Go's `strings.Split`, `Contains` and `ToLower`, `strconv.Atoi` and `%d`.
- `KubeApi`: the API objects the watchers read.
- `Common`, `Config`, `K8sClient`, `Controller`, `PodWatcher`, `HpaWatcher`: one per source package or file.

Modelling choices:
- The process environment is a map of variables.
- A panic is a `Fail` outcome (configuration) or a `Panicked` outcome (handlers).
- Configuration values the handlers read are parameters: the cluster name, the default receiver and the exclude patterns.
- Creation and transition times are ordered integers, with 0 standing for Go's zero time. Times that are only printed are their rendered text.
- A nil annotation map is the empty map, because the code only ever looks keys up in it.
- A receiver is a function from the event to what it leaves on its channel: one value, or nothing. Nothing means a receive from that channel blocks forever.

## Model

| member | source | states |
|---|---|---|
| Strings.Split | pkg/common/common.go:22 | splitting on a one-character separator yields one piece more than there are separators, and no piece contains the separator |
| Strings.JoinSplit | pkg/common/common.go:22 | joining the pieces of a split with the separator gives back the original text |
| Strings.SplitJoin | pkg/config/config.go:34 | splitting the join of at least one separator-free piece gives back exactly those pieces |
| Strings.Contains | pkg/controller/podWatcher.go:302 | true exactly when the pattern occurs at some position of the text (so the empty pattern occurs in every text) |
| Strings.ContainsInfix | pkg/controller/podWatcher.go:203 | a pattern found in a part of a message is found in the whole message |
| Strings.ContainsSelf | pkg/controller/podWatcher.go:203 | every text contains itself |
| Strings.ToLower | pkg/config/config.go:114 | lower-casing keeps the length and maps each character on its own |
| Strings.ToLowerIdempotent | pkg/config/config.go:114 | lower-casing twice is lower-casing once |
| Strings.NatDecimal | pkg/controller/hpaWatcher.go:140 | the %d rendering of a natural number is a digit string whose value is that number |
| Strings.Decimal | pkg/controller/podWatcher.go:286 | the %d rendering of an integer is never empty |
| Strings.Atoi | pkg/config/config.go:55 | a digit string parses to its value; nothing parses from the empty string |
| Strings.DecimalRoundTrip | pkg/config/config.go:55-60 | parsing the %d rendering of any integer gives the integer back |
| Common.PodCrashLoopbackStringIdentifier | pkg/common/common.go:10-15 | the crash-loop marker is non-empty and holds no comma or newline |
| Common.BuildEventReceiversList | pkg/common/common.go:18-30 | the list always ends with the default receiver; a missing or empty annotation gives only the default; otherwise the comma-free pieces of the annotation come first, in order, one per comma plus one |
| Common.ReceiversAreAnnotationPieces | pkg/common/common.go:21-25 | the annotation's names are exactly the comma-free pieces whose join is the annotation, followed by the default |
| Common.DefaultReceiverNotDeduplicated | pkg/common/common.go:25-29 | a listed name equal to the default receiver appears at least twice: nothing is deduplicated |
| Common.ReceiversExample | pkg/common/common.go:18-30 | annotation "a,b" with default "log" gives ["a", "b", "log"] |
| Config.HomeDir | pkg/config/config.go:126-132 | HOME when set, else USERPROFILE |
| Config.KubeConfigPath | pkg/config/config.go:43-49 | K8S_CONF_FILE_PATH when set, else the home directory followed by "/.kube/config" |
| Config.CommaList | pkg/config/config.go:31-41 | an empty value gives the empty list; otherwise the comma-free pieces, in order, whose join is the value |
| Config.LevelNamedIgnoresCase | pkg/config/config.go:114-123 | a LOG_LEVEL value names the same level as its lower-case form |
| Config.ParsePort | pkg/config/config.go:55-63 | PORT is accepted exactly when it parses as an integer from 1 to 65535, and then as that integer |
| Config.PortRoundTrip | pkg/config/config.go:55-63 | every port from 1 to 65535, written in decimal, is accepted as itself |
| Config.VerifyMandatoryVariables | pkg/config/config.go:98-104 | passes exactly when K8S_CLUSTER_NAME and PORT are both non-empty; otherwise fails naming the first one that is empty |
| Config.Config.constructor | pkg/config/config.go:15-22 | every setting starts at its Go zero value; the zero log level is Debug |
| Config.Config.SetLogLevel | pkg/config/config.go:106-124 | an empty LOG_LEVEL gives Info, a recognised one (any case) its level, an unrecognised one leaves the level unchanged |
| Config.Config.ReadSettings | pkg/config/config.go:28-53 | cluster name, token, pattern and channel lists, kube config path, and the default receiver ("slack" when unset) are set from the environment |
| Config.Config.Init | pkg/config/config.go:24-66 | the log level is set first; a missing mandatory variable fails before any other setting changes, naming K8S_CLUSTER_NAME when that one is empty and PORT otherwise; otherwise every setting is read, and the outcome passes exactly when PORT is valid, storing it, and fails with the PORT message otherwise, leaving the port unchanged |
| K8sClient.SummaryFlags | pkg/k8sclient/k8sclient.go:255-285 | each summary flag is cleared exactly when a condition of its type has a status other than "True"; AllT holds exactly when all four flags do |
| K8sClient.AllTMeansAllTrue | pkg/k8sclient/k8sclient.go:252-285 | a summary with AllT set has every flag set |
| K8sClient.SummariseConditions | pkg/k8sclient/k8sclient.go:255-269 | the loop computes the summary; AllT holds exactly when no watched condition is not "True" |
| K8sClient.CompareSummaries | pkg/k8sclient/k8sclient.go:287-293 | equal summaries give (true, true, true); (false, true, true) exactly when they differ and both have AllT; (false, false, false) exactly when they differ and neither does |
| K8sClient.FirstBranchUnreachable | pkg/k8sclient/k8sclient.go:287-288 | for summaries of real condition lists, (false, true, true) is never returned |
| K8sClient.CompareConditionsArray | pkg/k8sclient/k8sclient.go:249-295 | (false, false, false) exactly when the two pods' summaries differ and neither has AllT, (true, true, true) in every other case |
| K8sClient.PodIsReady | pkg/k8sclient/k8sclient.go:297-307 | false exactly when some "Ready" condition has a status other than "True"; true for no conditions |
| K8sClient.GetCurrentTransitionTime | pkg/k8sclient/k8sclient.go:309-320 | the first non-zero transition time, and an error "No transition time" exactly when every time is zero |
| K8sClient.FormatConditionsArray | pkg/k8sclient/k8sclient.go:178-215 | init-container statuses exactly when there is a transition time and only scheduling is complete; container statuses when scheduling and initialisation are; none with fewer than two conditions |
| K8sClient.ParseContainerState | pkg/k8sclient/k8sclient.go:231-247 | waiting before running before terminated; empty text exactly when no state is set |
| Controller.Errors | pkg/controller/controller.go:197-203 | the logged errors are exactly the errors sent on the channels, and there are no more of them than channels |
| Controller.WaitForChannelsToClose | pkg/controller/controller.go:195-206 | all values are received exactly when no channel is silent, logging the errors in order; otherwise the wait blocks at the first silent channel, having logged the errors before it |
| Controller.Channels | pkg/controller/controller.go:176-185 | one channel per listed name: the receiver's for a known name, a silent one for an unknown name |
| Controller.KnownCount | pkg/controller/controller.go:176-185 | a known name is dispatched once per occurrence in the list (duplicates twice); an unknown name never |
| Controller.UnknownCount | pkg/controller/controller.go:176-185 | an unknown name draws one warning per occurrence; a known name none |
| Controller.SendEventToReceivers | pkg/controller/controller.go:173-193 | the dispatched names are the known names in list order and the warnings the unknown ones; the wait completes exactly when every name is known and its receiver answers |
| Controller.OneFailureAmongThree | pkg/controller/controller.go:197-203 | with three receivers of which the second fails, exactly that error is logged |
| Controller.WorkQueue.constructor | pkg/controller/podWatcher.go:40 | a new queue is empty, not shut down, with no failure history |
| Controller.WorkQueue.Add | pkg/controller/podWatcher.go:57 | ignored after shutdown or for an already marked key; otherwise the key is marked and queued at the back unless it is being processed |
| Controller.WorkQueue.Get | pkg/controller/controller.go:92-95 | quit exactly when nothing is pending; otherwise the front key moves from pending to processing |
| Controller.WorkQueue.Done | pkg/controller/controller.go:99 | the key leaves processing and is queued again if it was re-marked meanwhile |
| Controller.WorkQueue.Forget | pkg/controller/controller.go:114 | the key's failure count is cleared |
| Controller.WorkQueue.AddRateLimited | pkg/controller/controller.go:124 | the key's failure count goes up by one and the key is added |
| Controller.WorkQueue.ShutDown | pkg/controller/controller.go:138 | the queue is shut down |
| Controller.Cost | pkg/controller/controller.go:118-119 | the number of further handler calls a pending key can still receive, between 1 and 6: six for a key that fails and has never been requeued, one for a key that succeeds or has used up its 5 retries |
| Controller.WorkAppend | pkg/controller/controller.go:164-167 | the remaining work of a queue with a key appended is the old work plus that key's cost |
| Controller.WorkFrame | pkg/controller/controller.go:164-167 | changing the failure count of a key that is not pending leaves the remaining work unchanged |
| Controller.Controller.constructor | pkg/controller/controller.go:79-87 | the controller holds the given queue, handler and resource type |
| Controller.Controller.HandleErr | pkg/controller/controller.go:109-132 | exactly one call, Forget or AddRateLimited: AddRateLimited (count plus one, key re-added) on an error while the key has been requeued fewer than 5 times, Forget (count cleared, queue untouched) otherwise |
| Controller.Controller.ProcessNextItem | pkg/controller/controller.go:89-106 | false, touching nothing, exactly when the queue is shut down and empty; otherwise the front key is handled once and the queue sees Get, then Forget or AddRateLimited, then Done, with the key requeued exactly on a retried error |
| Controller.Controller.RunWorker | pkg/controller/controller.go:164-167 | the worker loop terminates with nothing pending and the processing set as it found it; the handler is called at most as many times as the starting work (the sum of the pending keys' costs), and exactly that many times when the queue is not shut down |
| Controller.RetryScenario | pkg/controller/controller_test.go:125-145 | a key added rate-limited and then handled successfully is handed out by Get with its failure count cleared; after a failed handling the next Get hands out the same key again |
| Controller.AlwaysFailingKey | pkg/controller/controller.go:109-132 | a key whose handler always fails, alone on a live queue, is handed to the handler exactly 6 times (the first attempt and 5 retries) before the worker stops |
| PodWatcher.ParseContainerState | pkg/controller/podWatcher.go:264-290 | waiting before running before terminated; empty text exactly when no state is set or a terminated state has neither reason nor message; the waiting text adds the message only when there is one; a terminated text ends with the reason, falling back to the message |
| PodWatcher.CrashLoopEntryDetected | pkg/controller/podWatcher.go:251 | the line of a container waiting with reason CrashLoopBackOff contains the crash-loop marker |
| PodWatcher.StateEntries | pkg/controller/podWatcher.go:236-252 | every recorded container line is non-empty |
| PodWatcher.GetStateChangeOfContainers | pkg/controller/podWatcher.go:231-262 | the result is the new lines of a list naming every changed container exactly once and nothing else, so it has exactly one line per changed container; a container is changed when its new line differs from its old one or is new; containers only in the old list give nothing; identical lists give nothing |
| PodWatcher.ReadStates | pkg/controller/podWatcher.go:236-252 | the state map is each container's line keyed by its name, containers whose state renders empty left out, a later entry for the same name replacing an earlier one |
| PodWatcher.ChangedListCount | pkg/controller/podWatcher.go:254-259 | a list naming every changed container exactly once is as long as the set of changed containers |
| PodWatcher.ShouldWatchPod | pkg/controller/podWatcher.go:297-313 | true exactly when the ignore annotation is not "true" and no exclude pattern occurs in the key |
| PodWatcher.EmptyPatternExcludesAll | pkg/controller/podWatcher.go:301-305 | an empty exclude pattern excludes every pod |
| PodWatcher.InfixPatternExcludes | pkg/controller/podWatcher.go:301-305 | a pattern occurring anywhere in the pod name excludes the pod whatever its namespace |
| PodWatcher.MessagePodName | pkg/controller/podWatcher.go:142-145 | a StatefulSet's pod is shown with "-" and its UID appended; any other pod by its key |
| PodWatcher.BulletsContain | pkg/controller/podWatcher.go:191-193 | whatever an update line contains, the message listing it contains too |
| PodWatcher.Decide | pkg/controller/podWatcher.go:197-221 | a message is sent exactly when it is non-empty and the event is watched or the message mentions a crash loop; the sent event carries the name, message, user ids and receivers, flagged exactly when it mentions a crash loop |
| PodWatcher.PodUpdates | pkg/controller/podWatcher.go:175-181 | the update lines are the changed init containers' lines (only when init containers are watched) followed by the changed containers' lines, one line per changed container in each list; identical statuses give none |
| PodWatcher.UpdateLinesCount | pkg/controller/podWatcher.go:175-181 | the number of update lines is the number of changed containers plus, when init containers are watched, the number of changed init containers |
| PodWatcher.WriteUpdates | pkg/controller/podWatcher.go:183-194 | the message is the header followed by each update behind a dash, and mentions a crash loop whenever an update does |
| PodWatcher.PodEventsHandler | pkg/controller/podWatcher.go:101-226 | panics exactly on an Add without a pod; an Add is sent exactly when the pod was created after start-up; a Delete is always sent; an update without both snapshots or with differing creation times sends nothing; otherwise the update lines (changed init containers first when watched, then changed containers, one line each) are sent when the watch annotation is "true" or a line mentions a crash loop, to the new pod's receivers, with user ids only on updates |
| PodWatcher.CrashLoopOverridesWatch | pkg/controller/podWatcher.go:210-213 | an update listing a container waiting in CrashLoopBackOff is sent even without the watch annotation |
| HpaWatcher.ClassifyReplicaTrend | pkg/controller/hpaWatcher.go:137-180 | the full decision table; progress when the old and new counts move the same way, finished when a move reached its target, detected when a new move begins; nothing exactly when both snapshots are steady |
| HpaWatcher.Guards | pkg/controller/hpaWatcher.go:138-175 | the six conditions of the replica if-chain in source order, as a reference for the classifier; its own contract only fixes their number, and HpaWatcher.GuardsExclusive and HpaWatcher.ClassifierFollowsGuards state what they mean |
| HpaWatcher.GuardsExclusive | pkg/controller/hpaWatcher.go:137-180 | no two guards hold for the same update, so no message is overwritten |
| HpaWatcher.ClassifierFollowsGuards | pkg/controller/hpaWatcher.go:137-180 | the category reported is that of the guard that holds |
| HpaWatcher.TrendMessage | pkg/controller/hpaWatcher.go:140-177 | every category has a non-empty message |
| HpaWatcher.HpaEventsHandler | pkg/controller/hpaWatcher.go:91-201 | panics exactly on an Add without an object; an Add is sent exactly when created after start-up; a Delete always; an update exactly when both snapshots exist and the trend is reported; receivers come from the new object, user ids only on updates, never a crash-loop flag |
| HpaWatcher.DeleteGoesToDefault | pkg/controller/hpaWatcher.go:100-117 | a Delete, which carries no new object, goes to the default receiver alone |
| HpaWatcher.ScaleUpDetectedExample | pkg/controller/hpaWatcher.go:168-180 | old (2, 2) to new (2, 4) is a detected scale-up |

## Left out

- Informers, list-watches, the add/update/delete callbacks and the JSON encoding of event records: these are client-go and encoding/json. The event record is a datatype given to the handlers directly. A record that fails to decode is the zero record, which the handlers treat as an update without pods.
- Goroutines, `Run`, `StartWatch`, `WaitForCacheSync` and the parallel fan-out: they are concurrency. The fan-out is modelled as a sequential fold.
- Logging (zerolog), `outputConfig`, the `Println` output of `formatConditionsArray` and `parseContainerStatus`, and the debug log of the sent event: output only.
- The receivers package (Slack, log receiver), the HTTP server, main and the cluster client initialisation: network and process I/O. A receiver is a function from the event to its channel result.
- Controller.WorkQueue.AddRateLimited: the rate limiter's backoff delay is not modelled; the key is added at once.
- Controller.Controller.RunWorker: stops when nothing is pending, where the real worker would block inside Get waiting for more keys.
- Controller.Controller.ProcessNextItem: requires that a key is pending or the queue is shut down, because Get would otherwise block.
- Controller.Controller.ProcessNextItem: the handler is a function of the key alone; the cache indexer passed alongside it is dropped, because neither the pod handler nor the HPA handler reads it.
- Controller.Controller.HandleErr: `runtime.HandleError` and the log lines of the drop path are not modelled.
- Strings.Atoi: the 64-bit range check of strconv.Atoi is not modelled; PORT values outside that range are rejected by the 1..65535 check either way.
- Strings.ToLower: only the Unicode lower-case mappings that produce ASCII letters are modelled; no other mapping can turn a value into "debug", "info", "warn" or "error".
- K8sClient.GetCurrentTransitionTime: the current time returned alongside the error is not modelled.
- PodWatcher.ParseContainerState: StartedAt and FinishedAt are carried as their rendered text; the time formatting itself is not modelled.
- PodWatcher.PodEventsHandler: the order of update lines within one container list follows Go's unspecified map iteration order; the model states that order through the ghost name lists `initNames` and `mainNames`, which it does not pin down, while the init-then-container order and the one-line-per-changed-container count are stated. An owner list that is present but empty cannot reach the handler, because the JSON record omits it.
- The config getters (`Port`, `LogLevel`, `ClusterName`, …) are functions returning the stored field; they carry no contract of their own.
