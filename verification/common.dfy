/** pkg/common: the receiver list of an event and the crash-loop marker. */
module Common {
  import opened Strings
  import opened KubeApi

  /** Annotation holding a comma-separated list of receiver names. */
  const ReceiversAnnotationName: string := "kubeobserver.io/receivers"

  /** The text the cluster reports for a container stuck in a restart loop. */
  function PodCrashLoopbackStringIdentifier(): (id: string)
    ensures |id| > 0 && ',' !in id && '\n' !in id
  {
    "CrashLoopBackOff"
  }

  /**
   * The receivers of a resource's events: the comma-separated names of the
   * receivers annotation, in order, then the configured default receiver.
   * Duplicates are kept.
   */
  function BuildEventReceiversList(annotations: map<string, string>, defaultReceiver: string): (receivers: seq<string>)
    ensures |receivers| >= 1 && receivers[|receivers| - 1] == defaultReceiver
    ensures Lookup(annotations, ReceiversAnnotationName) == "" ==> receivers == [defaultReceiver]
    ensures var value := Lookup(annotations, ReceiversAnnotationName);
      value != "" ==>
        && |receivers| == multiset(value)[','] + 2
        && (forall i :: 0 <= i < |receivers| - 1 ==> ',' !in receivers[i])
        && Join(receivers[..|receivers| - 1], ',') == value
  {
    var value := Lookup(annotations, ReceiversAnnotationName);
    var named := if value != "" then Split(value, ',') else [];
    JoinSplit(value, ',');
    assert (named + [defaultReceiver])[..|named|] == named;
    named + [defaultReceiver]
  }

  /** The annotation's names are exactly the comma-free pieces whose join is the annotation. */
  lemma ReceiversAreAnnotationPieces(annotations: map<string, string>, defaultReceiver: string, names: seq<string>)
    requires Lookup(annotations, ReceiversAnnotationName) != ""
    requires |names| >= 1 && forall i :: 0 <= i < |names| ==> ',' !in names[i]
    requires Join(names, ',') == Lookup(annotations, ReceiversAnnotationName)
    ensures BuildEventReceiversList(annotations, defaultReceiver) == names + [defaultReceiver]
  {
    var value := Lookup(annotations, ReceiversAnnotationName);
    SplitJoin(names, ',');
    var r := BuildEventReceiversList(annotations, defaultReceiver);
    assert r == Split(value, ',') + [defaultReceiver];
  }

  /**
   * No deduplication takes place: a name listed in the annotation that equals
   * the default receiver appears (at least) twice.
   */
  lemma DefaultReceiverNotDeduplicated(annotations: map<string, string>, defaultReceiver: string)
    requires Lookup(annotations, ReceiversAnnotationName) != ""
    requires defaultReceiver in Split(Lookup(annotations, ReceiversAnnotationName), ',')
    ensures multiset(BuildEventReceiversList(annotations, defaultReceiver))[defaultReceiver] >= 2
  {
    var named := Split(Lookup(annotations, ReceiversAnnotationName), ',');
    assert BuildEventReceiversList(annotations, defaultReceiver) == named + [defaultReceiver];
    assert multiset(named)[defaultReceiver] >= 1;
  }

  /** Annotation "a,b" with default receiver "log" gives ["a", "b", "log"]. */
  lemma ReceiversExample()
    ensures BuildEventReceiversList(map[ReceiversAnnotationName := "a,b"], "log") == ["a", "b", "log"]
  {
    var names: seq<string> := ["a", "b"];
    assert names[1..] == ["b"];
    assert Join(names[1..], ',') == "b";
    assert Join(names, ',') == "a" + [','] + "b" == "a,b";
    assert forall i :: 0 <= i < |names| ==> ',' !in names[i];
    ReceiversAreAnnotationPieces(map[ReceiversAnnotationName := "a,b"], "log", ["a", "b"]);
  }
}
