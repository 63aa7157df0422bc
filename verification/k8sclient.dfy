/**
 * pkg/k8sclient: summarising a pod's conditions, comparing two summaries,
 * finding a transition time, and choosing which container statuses to show.
 */
module K8sClient {
  import opened Wrappers
  import opened KubeApi
  import Strings

  /** podStatusByConditions: one flag per watched condition type, and AllT for "all of them". */
  datatype ConditionSummary = ConditionSummary(ready: bool, init: bool, sched: bool, containersR: bool, allT: bool)

  const AllTrue: ConditionSummary := ConditionSummary(true, true, true, true, true)

  /** The condition of type `condType` is reported and its status is not "True". */
  predicate Clears(c: PodCondition, condType: string)
  {
    c.condType == condType && c.status != "True"
  }

  /** Some condition of type `condType` in the list has a status other than "True". */
  predicate SomeNotTrue(conds: seq<PodCondition>, condType: string)
  {
    exists i :: 0 <= i < |conds| && Clears(conds[i], condType)
  }

  /** One iteration of the loop over conditions. */
  function Absorb(s: ConditionSummary, c: PodCondition): ConditionSummary
  {
    if Clears(c, "Initialized") then s.(init := false, allT := false)
    else if Clears(c, "ContainersReady") then s.(containersR := false, allT := false)
    else if Clears(c, "PodScheduled") then s.(sched := false, allT := false)
    else if Clears(c, "Ready") then s.(ready := false, allT := false)
    else s
  }

  /** The summary the loop computes: all flags true, then each condition absorbed in order. */
  function Summary(conds: seq<PodCondition>): ConditionSummary
  {
    if |conds| == 0 then AllTrue
    else Absorb(Summary(conds[..|conds| - 1]), conds[|conds| - 1])
  }

  /**
   * Each flag is cleared exactly when a condition of its type is not "True";
   * AllT is cleared exactly when one of the four flags is. Conditions of any
   * other type leave the summary alone.
   */
  lemma {:induction false} SummaryFlags(conds: seq<PodCondition>)
    ensures Summary(conds).init <==> !SomeNotTrue(conds, "Initialized")
    ensures Summary(conds).containersR <==> !SomeNotTrue(conds, "ContainersReady")
    ensures Summary(conds).sched <==> !SomeNotTrue(conds, "PodScheduled")
    ensures Summary(conds).ready <==> !SomeNotTrue(conds, "Ready")
    ensures Summary(conds).allT <==>
      Summary(conds).init && Summary(conds).containersR && Summary(conds).sched && Summary(conds).ready
  {
    if |conds| > 0 {
      var front := conds[..|conds| - 1];
      SummaryFlags(front);
      forall t | t in {"Initialized", "ContainersReady", "PodScheduled", "Ready"}
        ensures SomeNotTrue(conds, t) <==> SomeNotTrue(front, t) || Clears(conds[|conds| - 1], t)
      {
        if SomeNotTrue(conds, t) {
          var i :| 0 <= i < |conds| && Clears(conds[i], t);
          if i < |conds| - 1 {
            assert Clears(front[i], t);
          }
        }
        if SomeNotTrue(front, t) {
          var i :| 0 <= i < |front| && Clears(front[i], t);
          assert Clears(conds[i], t);
        }
      }
    }
  }

  /** A summary with AllT set has every flag set. */
  lemma AllTMeansAllTrue(conds: seq<PodCondition>)
    ensures Summary(conds).allT ==> Summary(conds) == AllTrue
  {
    SummaryFlags(conds);
  }

  /** The condition loop of compareConditionsArray and formatConditionsArray. */
  method SummariseConditions(conds: seq<PodCondition>) returns (s: ConditionSummary)
    ensures s == Summary(conds)
    ensures s.allT <==> (!SomeNotTrue(conds, "Initialized") && !SomeNotTrue(conds, "ContainersReady")
                         && !SomeNotTrue(conds, "PodScheduled") && !SomeNotTrue(conds, "Ready"))
  {
    s := AllTrue;
    for i := 0 to |conds|
      invariant s == Summary(conds[..i])
    {
      var c := conds[i];
      assert conds[..i + 1][..i] == conds[..i];
      if c.condType == "Initialized" && c.status != "True" {
        s := s.(init := false, allT := false);
      } else if c.condType == "ContainersReady" && c.status != "True" {
        s := s.(containersR := false, allT := false);
      } else if c.condType == "PodScheduled" && c.status != "True" {
        s := s.(sched := false, allT := false);
      } else if c.condType == "Ready" && c.status != "True" {
        s := s.(ready := false, allT := false);
      }
    }
    assert conds[..|conds|] == conds;
    SummaryFlags(conds);
  }

  /** The three-way answer of compareConditionsArray, for any two summaries. */
  function CompareSummaries(o: ConditionSummary, n: ConditionSummary): (r: (bool, bool, bool))
    ensures o == n ==> r == (true, true, true)
    ensures r == (false, true, true) <==> o != n && o.allT && n.allT
    ensures r == (false, false, false) <==> o != n && !o.allT && !n.allT
    ensures r == (true, true, true) <==> !(o != n && o.allT == n.allT)
  {
    if o != n && o.allT && n.allT then (false, true, true)
    else if o != n && !o.allT && !n.allT then (false, false, false)
    else (true, true, true)
  }

  /**
   * For summaries of real condition lists the first answer, (false, true, true),
   * never happens: AllT forces every flag, so two AllT summaries are equal.
   */
  lemma FirstBranchUnreachable(oldConds: seq<PodCondition>, newConds: seq<PodCondition>)
    ensures CompareSummaries(Summary(oldConds), Summary(newConds)) != (false, true, true)
  {
    AllTMeansAllTrue(oldConds);
    AllTMeansAllTrue(newConds);
  }

  /**
   * compareConditionsArray: (false, false, false) when the summaries differ and
   * neither has AllT, otherwise (true, true, true).
   */
  method CompareConditionsArray(op: Pod, np: Pod) returns (r: (bool, bool, bool))
    ensures var o, n := Summary(op.status.conditions), Summary(np.status.conditions);
      && (r == (false, false, false) <==> o != n && !o.allT && !n.allT)
      && (r == (true, true, true) <==> !(o != n && !o.allT && !n.allT))
  {
    var oldPod := SummariseConditions(op.status.conditions);
    var newPod := SummariseConditions(np.status.conditions);
    FirstBranchUnreachable(op.status.conditions, np.status.conditions);
    r := CompareSummaries(oldPod, newPod);
  }

  /** podIsReady: false at the first "Ready" condition whose status is not "True". */
  method PodIsReady(p: Pod) returns (ready: bool)
    ensures ready <==> !SomeNotTrue(p.status.conditions, "Ready")
  {
    var conds := p.status.conditions;
    for i := 0 to |conds|
      invariant forall j :: 0 <= j < i ==> !Clears(conds[j], "Ready")
    {
      if conds[i].condType == "Ready" && conds[i].status != "True" {
        return false;
      }
    }
    return true;
  }

  /** Some condition carries a non-zero transition time. */
  predicate HasTransitionTime(conds: seq<PodCondition>)
  {
    exists i :: 0 <= i < |conds| && conds[i].lastTransitionTime != ZeroInstant
  }

  /**
   * getCurrentTransitionTime: the first non-zero transition time, or the error
   * "No transition time" when every condition's time is zero.
   */
  method GetCurrentTransitionTime(p: Pod) returns (r: Result<Instant>)
    ensures r.Success? <==> HasTransitionTime(p.status.conditions)
    ensures r.Success? ==>
      exists i :: (&& 0 <= i < |p.status.conditions|
                   && r.value == p.status.conditions[i].lastTransitionTime && r.value != ZeroInstant
                   && forall j :: 0 <= j < i ==> p.status.conditions[j].lastTransitionTime == ZeroInstant)
    ensures r.Failure? ==> r.error == "No transition time"
  {
    var conds := p.status.conditions;
    for i := 0 to |conds|
      invariant forall j :: 0 <= j < i ==> conds[j].lastTransitionTime == ZeroInstant
    {
      if conds[i].lastTransitionTime != ZeroInstant {
        return Success(conds[i].lastTransitionTime);
      }
    }
    return Failure("No transition time");
  }

  /** Which container statuses formatConditionsArray goes on to print. */
  datatype StatusesShown = InitContainerStatuses | ContainerStatuses | NoStatuses

  /**
   * formatConditionsArray's choice: with at least two conditions and a
   * transition time, the init-container statuses when only scheduling is
   * complete, the container statuses when scheduling and initialisation are.
   */
  method FormatConditionsArray(p: Pod) returns (shown: StatusesShown)
    ensures var conds := p.status.conditions;
      var s := if |conds| > 1 then Summary(conds) else AllTrue;
      && (shown == InitContainerStatuses <==>
            HasTransitionTime(conds) && s.sched && !s.init && !s.containersR && !s.ready)
      && (shown == ContainerStatuses <==>
            HasTransitionTime(conds) && s.sched && s.init && !s.containersR && !s.ready)
    ensures |p.status.conditions| <= 1 ==> shown == NoStatuses
  {
    var conds := p.status.conditions;
    var pod := AllTrue;
    if |conds| > 1 {
      pod := SummariseConditions(conds);
    }
    var prevTransitionTime := GetCurrentTransitionTime(p);
    shown := NoStatuses;
    if prevTransitionTime.Success? {
      if pod.sched && !pod.init && !pod.containersR && !pod.ready {
        shown := InitContainerStatuses;
      } else if pod.sched && pod.init && !pod.containersR && !pod.ready {
        shown := ContainerStatuses;
      }
    }
  }

  /**
   * This package's parseContainerState: waiting before running before
   * terminated; a terminated state always yields text (exit code and signal).
   */
  function ParseContainerState(cs: ContainerState): (s: string)
    ensures s == "" <==> cs.waiting.None? && cs.running.None? && cs.terminated.None?
    ensures cs.waiting.Some? ==> "is waiting since " + cs.waiting.value.reason <= s
    ensures cs.waiting.None? && cs.running.Some? ==> "has started at " + cs.running.value.startedAt <= s
    ensures cs.waiting.None? && cs.running.None? && cs.terminated.Some? ==>
      "has been terminated at " + cs.terminated.value.finishedAt <= s
  {
    if cs.waiting.Some? then
      var w := cs.waiting.value;
      if w.message != "" then "is waiting since " + w.reason + " with following info: " + w.message + "\n"
      else "is waiting since " + w.reason + "\n"
    else if cs.running.Some? then
      "has started at " + cs.running.value.startedAt + "\n"
    else if cs.terminated.Some? then
      var t := cs.terminated.value;
      "has been terminated at " + t.finishedAt + " with status code " + Strings.Decimal(t.exitCode)
        + " after receiving a " + Strings.Decimal(t.signal) + " signal \n"
    else ""
  }
}
