/**
 * pkg/controller/hpaWatcher.go: the replica-trend classifier of a
 * HorizontalPodAutoscaler update and the decision whether to send an event.
 */
module HpaWatcher {
  import opened Wrappers
  import opened Strings
  import opened KubeApi
  import opened Common
  import opened Controller

  const HpaSlackUserIdsAnnotationName: string := "hpa-watch-kubeobserver.io/slack_users_id"

  /** The event record the informer callbacks enqueue; a payload that fails to decode is the zero record. */
  datatype HpaEvent = HpaEvent(eventName: string, hpaName: string, newHpa: Option<HorizontalPodAutoscaler>, oldHpa: Option<HorizontalPodAutoscaler>)

  /** The six kinds of replica-count update that are reported. */
  datatype Trend =
    | ScaleUpProgress | ScaleUpFinished
    | ScaleDownProgress | ScaleDownFinished
    | ScaleDownDetected | ScaleUpDetected

  /**
   * The update classifier, guard by guard as the handler runs them: the two
   * scale-up guards, the two scale-down guards, then, only when none of those
   * fired, the two detection guards. A later guard overwrites an earlier one.
   */
  function ClassifyReplicaTrend(o: HpaStatus, n: HpaStatus): (t: Option<Trend>)
    // the decision table
    ensures o.currentReplicas < o.desiredReplicas ==>
      t == if n.currentReplicas < n.desiredReplicas then Some(ScaleUpProgress)
           else if n.currentReplicas == n.desiredReplicas then Some(ScaleUpFinished)
           else Some(ScaleDownDetected)
    ensures o.currentReplicas > o.desiredReplicas ==>
      t == if n.currentReplicas > n.desiredReplicas then Some(ScaleDownProgress)
           else if n.currentReplicas == n.desiredReplicas then Some(ScaleDownFinished)
           else Some(ScaleUpDetected)
    ensures o.currentReplicas == o.desiredReplicas ==>
      t == if n.currentReplicas > n.desiredReplicas then Some(ScaleDownDetected)
           else if n.currentReplicas < n.desiredReplicas then Some(ScaleUpDetected)
           else None
    // what each category means
    ensures t.None? <==> o.currentReplicas == o.desiredReplicas && n.currentReplicas == n.desiredReplicas
    ensures t == Some(ScaleUpProgress) <==> o.currentReplicas < o.desiredReplicas && n.currentReplicas < n.desiredReplicas
    ensures t == Some(ScaleDownProgress) <==> o.currentReplicas > o.desiredReplicas && n.currentReplicas > n.desiredReplicas
    ensures t == Some(ScaleUpFinished) <==> o.currentReplicas < o.desiredReplicas && n.currentReplicas == n.desiredReplicas
    ensures t == Some(ScaleDownFinished) <==> o.currentReplicas > o.desiredReplicas && n.currentReplicas == n.desiredReplicas
    ensures t == Some(ScaleUpDetected) <==> o.currentReplicas >= o.desiredReplicas && n.currentReplicas < n.desiredReplicas
    ensures t == Some(ScaleDownDetected) <==> o.currentReplicas <= o.desiredReplicas && n.currentReplicas > n.desiredReplicas
  {
    var oc, od, nc, nd := o.currentReplicas, o.desiredReplicas, n.currentReplicas, n.desiredReplicas;
    var m1 := if oc < od && nc < nd then Some(ScaleUpProgress) else None;
    var m2 := if oc < od && nc == nd then Some(ScaleUpFinished) else m1;
    var m3 := if oc > od && nc > nd then Some(ScaleDownProgress) else m2;
    var m4 := if oc > od && nc == nd then Some(ScaleDownFinished) else m3;
    var m5 := if m4.None? && nc > nd then Some(ScaleDownDetected) else m4;
    if m4.None? && nc < nd then Some(ScaleUpDetected) else m5
  }

  /** The six guards as written; no two of them can hold for the same update. */
  function Guards(o: HpaStatus, n: HpaStatus): (g: seq<bool>)
    ensures |g| == 6
  {
    var oc, od, nc, nd := o.currentReplicas, o.desiredReplicas, n.currentReplicas, n.desiredReplicas;
    var earlier := (oc < od && (nc < nd || nc == nd)) || (oc > od && (nc > nd || nc == nd));
    [oc < od && nc < nd, oc < od && nc == nd, oc > od && nc > nd, oc > od && nc == nd,
     !earlier && nc > nd, !earlier && nc < nd]
  }

  /** At most one guard fires, so no message is ever overwritten by a later one. */
  lemma GuardsExclusive(o: HpaStatus, n: HpaStatus, i: nat, j: nat)
    requires i < j < 6 && Guards(o, n)[i]
    ensures !Guards(o, n)[j]
  {
  }

  /** The classifier reports exactly the category of the guard that fires. */
  lemma ClassifierFollowsGuards(o: HpaStatus, n: HpaStatus, i: nat)
    requires i < 6 && Guards(o, n)[i]
    ensures ClassifyReplicaTrend(o, n) == Some([ScaleUpProgress, ScaleUpFinished, ScaleDownProgress,
                                               ScaleDownFinished, ScaleDownDetected, ScaleUpDetected][i])
  {
  }

  /** The message of a reported category. */
  function TrendMessage(t: Trend, hpaName: string, clusterName: string, n: HpaStatus): (m: string)
    ensures |m| > 0
  {
    var replicas := "current-replicas:`" + Decimal(n.currentReplicas) + "` desired-replicas:`" + Decimal(n.desiredReplicas) + "`";
    match t
    case ScaleUpProgress =>
      "HorizontalPodAutoscaler[`" + hpaName + "`] scale `UP` event progress has updated in `" + clusterName + "` cluster. " + replicas
    case ScaleUpFinished =>
      "HorizontalPodAutoscaler[`" + hpaName + "`] scale `UP` event has finished in `" + clusterName + "` cluster. " + replicas
    case ScaleDownProgress =>
      "HorizontalPodAutoscaler[`" + hpaName + "`] scale `DOWN` event progress has updated in `" + clusterName + "` cluster. " + replicas
    case ScaleDownFinished =>
      "HorizontalPodAutoscaler[`" + hpaName + "`] scale `DOWN` event has finished in `" + clusterName + "` cluster. " + replicas
    case ScaleDownDetected =>
      "scale `DOWN` event has detected by HorizontalPodAutoscaler [`" + hpaName + "`] in `" + clusterName
        + "` cluster. starting to `decrease` pod number. " + replicas
    case ScaleUpDetected =>
      "scale `UP` event has detected by HorizontalPodAutoscaler[`" + hpaName + "`] in `" + clusterName
        + "` cluster. starting to `increase` pod number.  " + replicas
  }

  function AddedMessage(hpaName: string, clusterName: string): string
  {
    "New HorizontalPodAutoscaler resource [`" + hpaName + "`] added to `" + clusterName + "` cluster"
  }

  function DeletedMessage(hpaName: string, clusterName: string): string
  {
    "HorizontalPodAutoscaler resource [`" + hpaName + "`] has deleted from `" + clusterName + "` cluster"
  }

  function HpaAnnotationsOf(h: Option<HorizontalPodAutoscaler>): map<string, string>
  {
    if h.Some? then h.value.annotations else map[]
  }

  /** The user ids listed on an autoscaler, read on updates only. */
  function HpaUserIds(annotations: map<string, string>): seq<string>
  {
    var ids := Lookup(annotations, HpaSlackUserIdsAnnotationName);
    if ids != "" then Split(ids, ',') else []
  }

  /** The message of an event: "" when there is nothing to report. */
  function HpaMessage(ev: HpaEvent, initTime: Instant, clusterName: string): string
    requires ev.eventName == "Add" ==> ev.newHpa.Some?
  {
    if ev.eventName == "Add" then
      if initTime < ev.newHpa.value.creationTimestamp then AddedMessage(ev.hpaName, clusterName) else ""
    else if ev.eventName == "Delete" then DeletedMessage(ev.hpaName, clusterName)
    else if ev.oldHpa.None? || ev.newHpa.None? then ""
    else match ClassifyReplicaTrend(ev.oldHpa.value.status, ev.newHpa.value.status)
      case None => ""
      case Some(t) => TrendMessage(t, ev.hpaName, clusterName, ev.newHpa.value.status)
  }

  /**
   * hpaEventsHandler, with the application's start time, the cluster name and
   * the default receiver as parameters: a non-empty message is always sent; it
   * never returns an error, and panics on an Add record without an object.
   */
  function HpaEventsHandler(ev: HpaEvent, initTime: Instant, clusterName: string, defaultReceiver: string): (r: HandlerOutcome)
    ensures r.Panicked? <==> ev.eventName == "Add" && ev.newHpa.None?
    ensures ev.eventName == "Add" && ev.newHpa.Some? ==>
      (r.dispatch.Some? <==> initTime < ev.newHpa.value.creationTimestamp)
    ensures ev.eventName == "Delete" ==> r.Returned? && r.dispatch.Some?
    ensures ev.eventName != "Add" && ev.eventName != "Delete" ==>
      && r.Returned?
      && (r.dispatch.Some? <==>
            ev.oldHpa.Some? && ev.newHpa.Some? && ClassifyReplicaTrend(ev.oldHpa.value.status, ev.newHpa.value.status).Some?)
    ensures r.Returned? && r.dispatch.Some? ==>
      var d := r.dispatch.value;
      && d.receivers == BuildEventReceiversList(HpaAnnotationsOf(ev.newHpa), defaultReceiver)
      && d.event.eventName == ev.eventName
      && d.event.message == HpaMessage(ev, initTime, clusterName) && d.event.message != ""
      && !d.event.additionalInfo.crashLoopBackOff
      && d.event.additionalInfo.watcherUserIds ==
           (if ev.eventName == "Add" || ev.eventName == "Delete" then [] else HpaUserIds(HpaAnnotationsOf(ev.newHpa)))
  {
    if ev.eventName == "Add" && ev.newHpa.None? then Panicked
    else
      var annotations := HpaAnnotationsOf(ev.newHpa);
      var eventReceivers := BuildEventReceiversList(annotations, defaultReceiver);
      var message := HpaMessage(ev, initTime, clusterName);
      var userIds := if ev.eventName == "Add" || ev.eventName == "Delete" then [] else HpaUserIds(annotations);
      if message != "" then
        Returned(Some(Dispatch(ReceiverEvent(ev.eventName, message, AdditionalInfo(false, userIds)), eventReceivers)))
      else Returned(None)
  }

  /** A deleted autoscaler's event goes to the default receiver alone. */
  lemma DeleteGoesToDefault(hpaName: string, oldHpa: Option<HorizontalPodAutoscaler>, initTime: Instant, clusterName: string, defaultReceiver: string)
    ensures HpaEventsHandler(HpaEvent("Delete", hpaName, None, oldHpa), initTime, clusterName, defaultReceiver)
      == Returned(Some(Dispatch(ReceiverEvent("Delete", DeletedMessage(hpaName, clusterName), AdditionalInfo(false, [])), [defaultReceiver])))
  {
  }

  /** An update from a steady state to a higher desired count is a detected scale-up. */
  lemma ScaleUpDetectedExample()
    ensures ClassifyReplicaTrend(HpaStatus(2, 2), HpaStatus(2, 4)) == Some(ScaleUpDetected)
  {
  }
}
