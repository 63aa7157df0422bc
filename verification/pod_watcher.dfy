/**
 * pkg/controller/podWatcher.go: the pod filter, the container-state diff and
 * the decision whether (and what) to send for a pod event.
 */
module PodWatcher {
  import opened Wrappers
  import opened Strings
  import opened KubeApi
  import opened Common
  import opened Controller

  const IgnoreAllPodEventsAnnotationName: string := "pod-kubeobserver.io/ignore"
  const WatchPodUpdateAnnotationName: string := "pod-update-kubeobserver.io/watch"
  const WatchPodInitContainersAnnotationName: string := "pod-init-container-kubeobserver.io/watch"
  const PodSlackUserIdsAnnotationName: string := "pod-watch-kubeobserver.io/slack_users_id"

  /**
   * The event record the informer callbacks enqueue. A payload that fails to
   * decode is the zero record: empty name, no pods.
   */
  datatype PodEvent = PodEvent(eventName: string, podName: string, newPod: Option<Pod>, oldPod: Option<Pod>)

  // ------------------------------------------------------------------ container states

  /** A state that this watcher renders as no text at all. */
  predicate Unreported(cs: ContainerState)
  {
    && cs.waiting.None? && cs.running.None?
    && (cs.terminated.None? || (cs.terminated.value.reason == "" && cs.terminated.value.message == ""))
  }

  /**
   * parseContainerState: waiting takes precedence over running, running over
   * terminated; a terminated state is reported with its reason, or failing
   * that its message, and not at all when it has neither.
   */
  function ParseContainerState(cs: ContainerState): (s: string)
    ensures s == "" <==> Unreported(cs)
    ensures cs.waiting.Some? ==>
      var w := cs.waiting.value;
      && "is waiting since " + w.reason <= s
      && (w.message == "" ==> s == "is waiting since " + w.reason + "\n")
      && (w.message != "" ==> s == "is waiting since " + w.reason + " with following info: " + w.message + "\n")
    ensures cs.waiting.None? && cs.running.Some? ==> s == "has started at " + cs.running.value.startedAt + "\n"
    ensures cs.waiting.None? && cs.running.None? && cs.terminated.Some? && s != "" ==>
      var t := cs.terminated.value;
      var why := if t.reason != "" then t.reason else t.message;
      && "has been terminated at " + t.finishedAt <= s
      && EndsWith(s, "Reason:`" + why + "`\n")
  {
    if cs.waiting.Some? then
      var w := cs.waiting.value;
      if w.message != "" then "is waiting since " + w.reason + " with following info: " + w.message + "\n"
      else "is waiting since " + w.reason + "\n"
    else if cs.running.Some? then
      "has started at " + cs.running.value.startedAt + "\n"
    else if cs.terminated.Some? then
      var t := cs.terminated.value;
      if t.reason == "" && t.message == "" then ""
      else
        var why := if t.reason != "" then t.reason else t.message;
        var head := "has been terminated at " + t.finishedAt + " with exit code " + Decimal(t.exitCode) + ". ";
        var tail := "Reason:`" + why + "`\n";
        assert (head + tail)[|head + tail| - |tail|..] == tail;
        head + tail
    else ""
  }

  /** The line reported for one container. */
  function ContainerEntry(name: string, state: string): string
  {
    "the container " + name + " " + state
  }

  /** A container waiting because of a restart loop is reported with the crash-loop marker in its line. */
  lemma CrashLoopEntryDetected(name: string, cs: ContainerState)
    requires cs.waiting.Some? && cs.waiting.value.reason == PodCrashLoopbackStringIdentifier()
    ensures Contains(ContainerEntry(name, ParseContainerState(cs)), PodCrashLoopbackStringIdentifier())
  {
    var id := PodCrashLoopbackStringIdentifier();
    var s := ParseContainerState(cs);
    var rest := s[|"is waiting since " + id|..];
    assert s == "is waiting since " + id + rest;
    ContainsSelf(id);
    assert ContainerEntry(name, s) == ("the container " + name + " " + "is waiting since ") + id + rest;
    ContainsInfix("the container " + name + " " + "is waiting since ", id, rest, id);
  }

  /**
   * The per-name lines of a status list, as the map the diff fills: a status
   * with a reported state sets its name's line; a later status of the same
   * name overwrites an earlier one.
   */
  function StateEntries(statuses: seq<ContainerStatus>): (m: map<string, string>)
    ensures forall n :: n in m ==> m[n] != ""
  {
    if |statuses| == 0 then map[]
    else
      var c := statuses[|statuses| - 1];
      var earlier := StateEntries(statuses[..|statuses| - 1]);
      var state := ParseContainerState(c.state);
      if state == "" then earlier else earlier[c.name := ContainerEntry(c.name, state)]
  }

  /** A name whose line in the new map is non-empty and differs from the old map's (or is new). */
  predicate Changed(oldState: map<string, string>, newState: map<string, string>, name: string)
  {
    name in newState && newState[name] != "" && Lookup(oldState, name) != newState[name]
  }

  /** `names` lists every container whose line changed, each exactly once, and nothing else. */
  ghost predicate ChangedList(oldStatuses: seq<ContainerStatus>, newStatuses: seq<ContainerStatus>, names: seq<string>)
  {
    && (forall i, j :: 0 <= i < j < |names| ==> names[i] != names[j])
    && (forall i :: 0 <= i < |names| ==> Changed(StateEntries(oldStatuses), StateEntries(newStatuses), names[i]))
    && (forall n :: Changed(StateEntries(oldStatuses), StateEntries(newStatuses), n) ==> n in names)
  }

  /** The containers whose line changed between two status lists. */
  ghost function ChangedNames(oldStatuses: seq<ContainerStatus>, newStatuses: seq<ContainerStatus>): set<string>
  {
    set n | n in StateEntries(newStatuses) && Changed(StateEntries(oldStatuses), StateEntries(newStatuses), n)
  }

  /** The new lines of `names`, in the order of `names`. */
  ghost function Lines(statuses: seq<ContainerStatus>, names: seq<string>): (lines: seq<string>)
    ensures |lines| == |names|
  {
    seq(|names|, i requires 0 <= i < |names| => Lookup(StateEntries(statuses), names[i]))
  }

  /** A sequence without repeated elements has as many elements as its set. */
  lemma {:induction false} DistinctCardinality(s: seq<string>)
    requires forall i, j :: 0 <= i < j < |s| ==> s[i] != s[j]
    ensures |set x | x in s| == |s|
  {
    if |s| > 0 {
      DistinctCardinality(s[1..]);
      assert (set x | x in s) == {s[0]} + (set x | x in s[1..]);
      assert s[0] !in s[1..];
    }
  }

  /** A change list names every changed container once: its length is the number of changed containers. */
  lemma ChangedListCount(oldStatuses: seq<ContainerStatus>, newStatuses: seq<ContainerStatus>, names: seq<string>)
    requires ChangedList(oldStatuses, newStatuses, names)
    ensures |names| == |ChangedNames(oldStatuses, newStatuses)|
  {
    DistinctCardinality(names);
    assert ChangedNames(oldStatuses, newStatuses) == set x | x in names;
  }

  /** Lines read off the new entries of a change list are that list's `Lines`. */
  lemma ChangeLines(oldStatuses: seq<ContainerStatus>, newStatuses: seq<ContainerStatus>, names: seq<string>, result: seq<string>)
    requires ChangedList(oldStatuses, newStatuses, names) && |result| == |names|
    requires forall i :: 0 <= i < |names| ==> result[i] == StateEntries(newStatuses)[names[i]]
    ensures result == Lines(newStatuses, names)
    ensures |result| == |ChangedNames(oldStatuses, newStatuses)|
  {
    ChangedListCount(oldStatuses, newStatuses, names);
  }

  /** One of the two map-building loops: each container's line, keyed by name, the last entry winning. */
  method ReadStates(statuses: seq<ContainerStatus>) returns (state: map<string, string>)
    ensures state == StateEntries(statuses)
  {
    state := map[];
    for i := 0 to |statuses|
      invariant state == StateEntries(statuses[..i])
    {
      assert statuses[..i + 1][..i] == statuses[..i];
      var container := statuses[i];
      var parsed := ParseContainerState(container.state);
      if parsed == "" {
        continue;
      }
      state := state[container.name := ContainerEntry(container.name, parsed)];
    }
    assert statuses[..|statuses|] == statuses;
  }

  /**
   * getStateChangeOfContainers: one line per changed name, taken from the new
   * map; names only in the old list contribute nothing. The lines come out in
   * map iteration order, which Go leaves unspecified; `names` records it.
   */
  method GetStateChangeOfContainers(oldStatuses: seq<ContainerStatus>, newStatuses: seq<ContainerStatus>)
    returns (result: seq<string>, ghost names: seq<string>)
    ensures ChangedList(oldStatuses, newStatuses, names)
    ensures result == Lines(newStatuses, names)
    ensures |result| == |ChangedNames(oldStatuses, newStatuses)|
    ensures oldStatuses == newStatuses ==> result == []
  {
    result, names := [], [];
    var oldState := ReadStates(oldStatuses);
    var newState := ReadStates(newStatuses);
    var remaining := newState.Keys;
    while remaining != {}
      invariant remaining <= newState.Keys
      invariant |names| == |result|
      invariant forall i, j :: 0 <= i < j < |names| ==> names[i] != names[j]
      invariant forall i :: 0 <= i < |names| ==>
        names[i] !in remaining && Changed(oldState, newState, names[i]) && result[i] == newState[names[i]]
      invariant forall n :: Changed(oldState, newState, n) && n !in remaining ==> n in names
      decreases |remaining|
    {
      var containerName :| containerName in remaining;
      if newState[containerName] != "" && Lookup(oldState, containerName) != newState[containerName] {
        result := result + [newState[containerName]];
        names := names + [containerName];
      }
      remaining := remaining - {containerName};
    }
    assert |names| > 0 ==> Changed(oldState, newState, names[0]);
    assert forall n :: oldState == newState ==> !Changed(oldState, newState, n);
    ChangeLines(oldStatuses, newStatuses, names, result);
  }

  // ------------------------------------------------------------------ filter

  /** The filter's verdict: not marked ignored, and no exclude pattern occurs in the key. */
  predicate Watched(key: string, annotations: map<string, string>, patterns: seq<string>)
  {
    Lookup(annotations, IgnoreAllPodEventsAnnotationName) != "true"
    && forall i :: 0 <= i < |patterns| ==> !Contains(key, patterns[i])
  }

  /** shouldWatchPod, with the configured exclude patterns as a parameter. */
  method ShouldWatchPod(key: string, annotations: map<string, string>, patterns: seq<string>) returns (shouldWatch: bool)
    ensures shouldWatch == Watched(key, annotations, patterns)
  {
    shouldWatch := Lookup(annotations, IgnoreAllPodEventsAnnotationName) != "true";
    if shouldWatch {
      for i := 0 to |patterns|
        invariant shouldWatch == forall j :: 0 <= j < i ==> !Contains(key, patterns[j])
      {
        if Contains(key, patterns[i]) {
          shouldWatch := false;
        }
      }
    }
  }

  /** An empty exclude pattern occurs in every key, so it excludes every pod. */
  lemma EmptyPatternExcludesAll(key: string, annotations: map<string, string>, patterns: seq<string>)
    requires "" in patterns
    ensures !Watched(key, annotations, patterns)
  {
    var i :| 0 <= i < |patterns| && patterns[i] == "";
    assert OccursAt(key, "", 0);
  }

  /** A pattern occurring anywhere in the key, not only as its name, excludes the pod. */
  lemma InfixPatternExcludes(namespace: string, name: string, pattern: string, annotations: map<string, string>, patterns: seq<string>)
    requires pattern in patterns && Contains(name, pattern)
    ensures !Watched(namespace + "/" + name, annotations, patterns)
  {
    ContainsInfix(namespace + "/", name, "", pattern);
    assert namespace + "/" + name + "" == namespace + "/" + name;
  }

  // ------------------------------------------------------------------ handler

  /** The pod's first owner, as (kind, name); a pod without owners has ("", ""). */
  function Owner(p: Pod): (string, string)
  {
    if |p.ownerReferences| > 0 then (p.ownerReferences[0].kind, p.ownerReferences[0].name) else ("", "")
  }

  function AnnotationsOf(p: Option<Pod>): map<string, string>
  {
    if p.Some? then p.value.annotations else map[]
  }

  /** The pod name shown in messages: a StatefulSet's pod carries its UID as a suffix. */
  function MessagePodName(podName: string, p: Pod): (shown: string)
    ensures Owner(p).0 == "StatefulSet" ==> shown == podName + "-" + p.uid
    ensures Owner(p).0 != "StatefulSet" ==> shown == podName
  {
    if Owner(p).0 == "StatefulSet" then podName + "-" + p.uid else podName
  }

  function AddedMessage(podName: string, p: Pod, clusterName: string): string
  {
    "A `pod` in namesapce `" + p.namespace + "` has been `Created`\n"
      + "Pod name:`" + MessagePodName(podName, p) + "`\n"
      + "Environment:`" + clusterName + "`\n"
      + "Controller kind:`" + Owner(p).0 + "`. Controller name:`" + Owner(p).1 + "`\n"
  }

  function DeletedMessage(podName: string, clusterName: string): string
  {
    "The pod `" + podName + "` in `" + clusterName + "` cluster has been deleted\n"
  }

  function UpdatedHeader(podName: string, p: Pod, clusterName: string): string
  {
    "A `pod` in namesapce `" + p.namespace + "` has been `Updated`. Pod-Name:`" + MessagePodName(podName, p)
      + "`. Environment:`" + clusterName + "`.\n"
      + "Controller kind:`" + Owner(p).0 + "`. Controller name:`" + Owner(p).1 + "`. Updates:\n"
  }

  /** The update lines, each behind a dash. */
  function Bullets(updates: seq<string>): string
  {
    if |updates| == 0 then "" else Bullets(updates[..|updates| - 1]) + "- " + updates[|updates| - 1]
  }

  /** Whatever an update line contains, the message listing it contains too. */
  lemma {:induction false} BulletsContain(header: string, updates: seq<string>, i: nat, sub: string)
    requires i < |updates| && Contains(updates[i], sub)
    ensures Contains(header + Bullets(updates), sub)
    decreases |updates|
  {
    var n := |updates| - 1;
    if i == n {
      ContainsInfix(header + Bullets(updates[..n]) + "- ", updates[n], "", sub);
      assert header + Bullets(updates[..n]) + "- " + updates[n] + "" == header + Bullets(updates);
    } else {
      BulletsContain(header, updates[..n], i, sub);
      var w := header + Bullets(updates[..n]);
      var j :| OccursAt(w, sub, j);
      assert (w + "- " + updates[n])[j..j + |sub|] == w[j..j + |sub|];
      assert OccursAt(header + Bullets(updates), sub, j);
    }
  }

  /** The user ids listed on a pod, read on updates only. */
  function UserIds(annotations: map<string, string>): seq<string>
  {
    var ids := Lookup(annotations, PodSlackUserIdsAnnotationName);
    if ids != "" then Split(ids, ',') else []
  }

  /**
   * The tail of the pod handler: a non-empty message is sent,
   * flagged when it mentions a crash loop, if the event is watched or the
   * message mentions a crash loop; nothing is sent otherwise.
   */
  function Decide(eventName: string, message: string, watchEvent: bool, userIds: seq<string>, receivers: seq<string>): (r: HandlerOutcome)
    ensures r.Returned?
    ensures r.dispatch.Some? <==> message != "" && (watchEvent || Contains(message, PodCrashLoopbackStringIdentifier()))
    ensures r.dispatch.Some? ==>
      && r.dispatch.value.receivers == receivers
      && r.dispatch.value.event.eventName == eventName && r.dispatch.value.event.message == message
      && r.dispatch.value.event.additionalInfo.watcherUserIds == userIds
      && (r.dispatch.value.event.additionalInfo.crashLoopBackOff <==> Contains(message, PodCrashLoopbackStringIdentifier()))
  {
    var crash := Contains(message, PodCrashLoopbackStringIdentifier());
    if message != "" && (watchEvent || crash) then
      Returned(Some(Dispatch(ReceiverEvent(eventName, message, AdditionalInfo(crash, userIds)), receivers)))
    else Returned(None)
  }

  /** An update passes the same-pod guard: both snapshots present, same creation time. */
  predicate SamePod(ev: PodEvent)
  {
    ev.newPod.Some? && ev.oldPod.Some? && ev.newPod.value.creationTimestamp == ev.oldPod.value.creationTimestamp
  }

  /**
   * The update lines of a pod: the lines of the changed init containers
   * `initNames` when `watchInit` holds (none otherwise), then the lines of the
   * changed containers `mainNames`, one line per changed container.
   */
  ghost predicate UpdateLines(o: Pod, p: Pod, watchInit: bool, initNames: seq<string>, mainNames: seq<string>, updates: seq<string>)
  {
    var oldInit, newInit := o.status.initContainerStatuses, p.status.initContainerStatuses;
    var oldMain, newMain := o.status.containerStatuses, p.status.containerStatuses;
    && (if watchInit then ChangedList(oldInit, newInit, initNames) else initNames == [])
    && ChangedList(oldMain, newMain, mainNames)
    && updates == Lines(newInit, initNames) + Lines(newMain, mainNames)
  }

  /** There are as many update lines as changed containers, init containers counted only when watched. */
  lemma UpdateLinesCount(o: Pod, p: Pod, watchInit: bool, initNames: seq<string>, mainNames: seq<string>, updates: seq<string>)
    requires UpdateLines(o, p, watchInit, initNames, mainNames, updates)
    ensures |updates| == (if watchInit then |ChangedNames(o.status.initContainerStatuses, p.status.initContainerStatuses)| else 0)
                         + |ChangedNames(o.status.containerStatuses, p.status.containerStatuses)|
  {
    if watchInit {
      ChangedListCount(o.status.initContainerStatuses, p.status.initContainerStatuses, initNames);
    }
    ChangedListCount(o.status.containerStatuses, p.status.containerStatuses, mainNames);
  }

  /** The update lines of the handler: init containers first (when watched), then containers. */
  method PodUpdates(o: Pod, p: Pod, watchInit: bool) returns (podUpdates: seq<string>, ghost initNames: seq<string>, ghost mainNames: seq<string>)
    ensures UpdateLines(o, p, watchInit, initNames, mainNames, podUpdates)
    ensures o.status == p.status ==> podUpdates == []
  {
    var initUpdates: seq<string> := [];
    initNames := [];
    if watchInit {
      initUpdates, initNames := GetStateChangeOfContainers(o.status.initContainerStatuses, p.status.initContainerStatuses);
    }
    assert initUpdates == Lines(p.status.initContainerStatuses, initNames);
    var updates;
    updates, mainNames := GetStateChangeOfContainers(o.status.containerStatuses, p.status.containerStatuses);
    podUpdates := initUpdates + updates;
  }

  /** The update message: the header, then every update line behind a dash. */
  method WriteUpdates(header: string, podUpdates: seq<string>) returns (eventMessage: string)
    ensures eventMessage == header + Bullets(podUpdates)
    ensures forall i :: 0 <= i < |podUpdates| && Contains(podUpdates[i], PodCrashLoopbackStringIdentifier()) ==>
      Contains(eventMessage, PodCrashLoopbackStringIdentifier())
  {
    eventMessage := header;
    for i := 0 to |podUpdates|
      invariant eventMessage == header + Bullets(podUpdates[..i])
    {
      assert podUpdates[..i + 1][..i] == podUpdates[..i];
      eventMessage := eventMessage + "- " + podUpdates[i];
    }
    assert podUpdates[..|podUpdates|] == podUpdates;
    forall i | 0 <= i < |podUpdates| && Contains(podUpdates[i], PodCrashLoopbackStringIdentifier())
      ensures Contains(eventMessage, PodCrashLoopbackStringIdentifier())
    {
      BulletsContain(header, podUpdates, i, PodCrashLoopbackStringIdentifier());
    }
  }

  /**
   * podEventsHandler, with the application's start time, the cluster name and
   * the default receiver as parameters. It never returns an error; it panics
   * on an Add record without a pod. `updates` are the update lines in the
   * order they were found, and `initNames` and `mainNames` the changed init
   * containers and containers they report, in that order.
   */
  method PodEventsHandler(ev: PodEvent, initTime: Instant, clusterName: string, defaultReceiver: string)
    returns (outcome: HandlerOutcome, ghost updates: seq<string>, ghost initNames: seq<string>, ghost mainNames: seq<string>)
    ensures outcome.Panicked? <==> ev.eventName == "Add" && ev.newPod.None?
    ensures ev.eventName == "Add" && ev.newPod.Some? ==>
      var p := ev.newPod.value;
      && outcome == Decide("Add", if initTime < p.creationTimestamp then AddedMessage(ev.podName, p, clusterName) else "",
                           true, [], BuildEventReceiversList(p.annotations, defaultReceiver))
      && (outcome.dispatch.Some? <==> initTime < p.creationTimestamp)
    ensures ev.eventName == "Delete" ==>
      && outcome == Decide("Delete", DeletedMessage(ev.podName, clusterName), true, [],
                           BuildEventReceiversList(AnnotationsOf(ev.newPod), defaultReceiver))
      && outcome.dispatch.Some?
    ensures ev.eventName != "Add" && ev.eventName != "Delete" && !SamePod(ev) ==> outcome == Returned(None)
    ensures ev.eventName != "Add" && ev.eventName != "Delete" && SamePod(ev) ==>
      var p, o := ev.newPod.value, ev.oldPod.value;
      && outcome == Decide(ev.eventName, if |updates| > 0 then UpdatedHeader(ev.podName, p, clusterName) + Bullets(updates) else "",
                           Lookup(p.annotations, WatchPodUpdateAnnotationName) == "true",
                           UserIds(p.annotations), BuildEventReceiversList(p.annotations, defaultReceiver))
      && UpdateLines(o, p, Lookup(p.annotations, WatchPodInitContainersAnnotationName) == "true", initNames, mainNames, updates)
      && (o.status == p.status ==> outcome == Returned(None))
      && ((exists i :: 0 <= i < |updates| && Contains(updates[i], PodCrashLoopbackStringIdentifier())) ==> outcome.dispatch.Some?)
  {
    updates, initNames, mainNames := [], [], [];
    var annotations: map<string, string> := map[];
    if ev.newPod.Some? {
      annotations := ev.newPod.value.annotations;
    }
    var eventReceivers := BuildEventReceiversList(annotations, defaultReceiver);
    var watchEvent := true;
    var eventMessage := "";
    var userIds: seq<string> := [];

    if ev.eventName == "Add" {
      if ev.newPod.None? {
        return Panicked, updates, initNames, mainNames;
      }
      var p := ev.newPod.value;
      if initTime < p.creationTimestamp {
        eventMessage := AddedMessage(ev.podName, p, clusterName);
      }
    } else if ev.eventName == "Delete" {
      eventMessage := DeletedMessage(ev.podName, clusterName);
    } else {
      watchEvent := false;
      if !SamePod(ev) {
        return Returned(None), updates, initNames, mainNames;
      }
      var p, o := ev.newPod.value, ev.oldPod.value;
      watchEvent := Lookup(annotations, WatchPodUpdateAnnotationName) == "true";
      var watchInitContainers := Lookup(annotations, WatchPodInitContainersAnnotationName) == "true";
      userIds := UserIds(annotations);
      var podUpdates;
      podUpdates, initNames, mainNames := PodUpdates(o, p, watchInitContainers);
      updates := podUpdates;
      if |podUpdates| > 0 {
        eventMessage := WriteUpdates(UpdatedHeader(ev.podName, p, clusterName), podUpdates);
      }
    }

    outcome := Decide(ev.eventName, eventMessage, watchEvent, userIds, eventReceivers);
  }

  /**
   * A container that has entered a restart loop is reported even on a pod
   * without the update-watch annotation.
   */
  lemma CrashLoopOverridesWatch(eventName: string, header: string, updates: seq<string>, i: nat,
                                userIds: seq<string>, receivers: seq<string>, name: string, cs: ContainerState)
    requires i < |updates| && updates[i] == ContainerEntry(name, ParseContainerState(cs))
    requires cs.waiting.Some? && cs.waiting.value.reason == PodCrashLoopbackStringIdentifier()
    ensures Decide(eventName, header + Bullets(updates), false, userIds, receivers).dispatch.Some?
  {
    CrashLoopEntryDetected(name, cs);
    BulletsContain(header, updates, i, PodCrashLoopbackStringIdentifier());
  }
}
