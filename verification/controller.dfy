/**
 * pkg/controller, generic part: the rate-limited work queue the watchers feed,
 * the worker step with its retry policy, and the fan-out of one event to its
 * receivers.
 */
module Controller {
  import opened Wrappers

  // ------------------------------------------------------------------ events

  /** The additional information attached to an event. */
  datatype AdditionalInfo = AdditionalInfo(crashLoopBackOff: bool, watcherUserIds: seq<string>)

  datatype ReceiverEvent = ReceiverEvent(eventName: string, message: string, additionalInfo: AdditionalInfo)

  /** The arguments of one sendEventToReceivers call. */
  datatype Dispatch = Dispatch(event: ReceiverEvent, receivers: seq<string>)

  /**
   * What an event handler did: returned (always with a nil error), having
   * dispatched at most one event, or panicked on a nil object.
   */
  datatype HandlerOutcome = Returned(dispatch: Option<Dispatch>) | Panicked

  // ------------------------------------------------------------------ fan-out

  /**
   * What a receiver leaves on the channel it is handed: one value (nil, or an
   * error), or nothing at all, in which case receiving from it blocks forever.
   */
  datatype ChannelResult = Sent(err: Option<string>) | Silent

  /** A registered receiver: what it leaves on its channel for a given event. */
  type Receiver = ReceiverEvent -> ChannelResult

  /**
   * The end of waitForChannelsToClose: every channel gave a value, or the wait
   * blocks forever at a silent channel. `errors` are the errors logged so far.
   */
  datatype WaitOutcome = AllReceived(errors: seq<string>) | BlockedAt(index: nat, errors: seq<string>)

  /** The errors found on a list of channels, in order. */
  function Errors(chans: seq<ChannelResult>): (errs: seq<string>)
    ensures |errs| <= |chans|
    ensures forall e :: e in errs <==> exists i :: 0 <= i < |chans| && chans[i] == Sent(Some(e))
  {
    if |chans| == 0 then []
    else
      var last := chans[|chans| - 1];
      Errors(chans[..|chans| - 1]) + (if last.Sent? && last.err.Some? then [last.err.value] else [])
  }

  /**
   * waitForChannelsToClose: takes one value from each channel in list order and
   * logs every error; a channel nobody writes to or closes blocks the wait.
   */
  method WaitForChannelsToClose(chans: seq<ChannelResult>) returns (outcome: WaitOutcome)
    ensures outcome.AllReceived? <==> forall i :: 0 <= i < |chans| ==> chans[i].Sent?
    ensures outcome.AllReceived? ==> outcome.errors == Errors(chans)
    ensures outcome.BlockedAt? ==>
      && outcome.index < |chans| && chans[outcome.index].Silent?
      && (forall j :: 0 <= j < outcome.index ==> chans[j].Sent?)
      && outcome.errors == Errors(chans[..outcome.index])
  {
    var logged: seq<string> := [];
    for i := 0 to |chans|
      invariant forall j :: 0 <= j < i ==> chans[j].Sent?
      invariant logged == Errors(chans[..i])
    {
      assert chans[..i + 1][..i] == chans[..i];
      match chans[i]
      case Silent =>
        return BlockedAt(i, logged);
      case Sent(err) =>
        if err.Some? {
          logged := logged + [err.value];
        }
    }
    assert chans[..|chans|] == chans;
    return AllReceived(logged);
  }

  /** The channel each receiver name ends up with: the receiver's, or an unused one. */
  function Channels(event: ReceiverEvent, names: seq<string>, registry: map<string, Receiver>): (chans: seq<ChannelResult>)
    ensures |chans| == |names|
    ensures forall i :: 0 <= i < |names| ==>
      chans[i] == if names[i] in registry then registry[names[i]](event) else Silent
  {
    seq(|names|, i requires 0 <= i < |names| =>
      if names[i] in registry then registry[names[i]](event) else Silent)
  }

  /** The names found in the registry, in order, repeats kept. */
  function Known(names: seq<string>, registry: map<string, Receiver>): seq<string>
  {
    if |names| == 0 then []
    else Known(names[..|names| - 1], registry) + (if names[|names| - 1] in registry then [names[|names| - 1]] else [])
  }

  /** The names missing from the registry, in order, repeats kept. */
  function Unknown(names: seq<string>, registry: map<string, Receiver>): seq<string>
  {
    if |names| == 0 then []
    else Unknown(names[..|names| - 1], registry) + (if names[|names| - 1] in registry then [] else [names[|names| - 1]])
  }

  /** A known name is dispatched as many times as it is listed; an unknown one never. */
  lemma {:induction false} KnownCount(names: seq<string>, registry: map<string, Receiver>, n: string)
    ensures multiset(Known(names, registry))[n] == if n in registry then multiset(names)[n] else 0
    decreases |names|
  {
    if |names| > 0 {
      var init := names[..|names| - 1];
      assert names == init + [names[|names| - 1]];
      KnownCount(init, registry, n);
    }
  }

  /** An unknown name draws one warning per occurrence; a known one none. */
  lemma {:induction false} UnknownCount(names: seq<string>, registry: map<string, Receiver>, n: string)
    ensures multiset(Unknown(names, registry))[n] == if n in registry then 0 else multiset(names)[n]
    decreases |names|
  {
    if |names| > 0 {
      var init := names[..|names| - 1];
      assert names == init + [names[|names| - 1]];
      UnknownCount(init, registry, n);
    }
  }

  /**
   * sendEventToReceivers, run sequentially: each name found in the registry is
   * handed the event once per occurrence, each unknown name draws a warning,
   * then every channel is waited on.
   */
  method SendEventToReceivers(event: ReceiverEvent, names: seq<string>, registry: map<string, Receiver>)
    returns (dispatched: seq<string>, warnings: seq<string>, outcome: WaitOutcome)
    ensures dispatched == Known(names, registry) && warnings == Unknown(names, registry)
    ensures outcome.AllReceived? <==>
      forall i :: 0 <= i < |names| ==> names[i] in registry && registry[names[i]](event).Sent?
    ensures outcome.AllReceived? ==> outcome.errors == Errors(Channels(event, names, registry))
  {
    var channelList: seq<ChannelResult> := [];
    dispatched, warnings := [], [];
    for i := 0 to |names|
      invariant |channelList| == i
      invariant forall j :: 0 <= j < i ==>
        channelList[j] == if names[j] in registry then registry[names[j]](event) else Silent
      invariant dispatched == Known(names[..i], registry) && warnings == Unknown(names[..i], registry)
    {
      var receiverName := names[i];
      assert names[..i + 1][..i] == names[..i];
      if receiverName in registry {
        channelList := channelList + [registry[receiverName](event)];
        dispatched := dispatched + [receiverName];
      } else {
        channelList := channelList + [Silent];
        warnings := warnings + [receiverName];
      }
    }
    assert names[..|names|] == names;
    assert channelList == Channels(event, names, registry);
    outcome := WaitForChannelsToClose(channelList);
  }

  /** One receiver failing among three: the wait ends and logs exactly that error. */
  lemma OneFailureAmongThree(e: string)
    ensures Errors([Sent(None), Sent(Some(e)), Sent(None)]) == [e]
  {
    var chans := [Sent(None), Sent(Some(e)), Sent(None)];
    assert chans[..2][..1] == [Sent(None)] && [Sent(None)][..0] == [];
    assert Errors([Sent(None)]) == [];
    assert chans[..2] == [Sent(None), Sent(Some(e))];
    assert Errors(chans[..2]) == [e];
  }

  // ------------------------------------------------------------------ the queue

  /** The calls the controller makes on its queue, recorded in order. */
  datatype QueueCall = GetCall(key: string) | DoneCall(key: string) | ForgetCall(key: string) | AddRateLimitedCall(key: string)

  /** The requeue count of a key: the number of failures recorded for it. */
  function Requeues(failures: map<string, nat>, key: string): nat
  {
    if key in failures then failures[key] else 0
  }

  /** The number of retries after which a failing key is dropped. */
  const MaxRetries: nat := 5

  /**
   * The rate-limiting work queue, abstractly: the FIFO of pending keys, the set
   * of keys marked for (re)processing, the keys being processed, the failure
   * count per key, and whether the queue has been shut down. Backoff delays are
   * not modelled: a rate-limited add takes effect at once.
   */
  class WorkQueue {
    var queue: seq<string>
    var dirty: set<string>
    var processing: set<string>
    var failures: map<string, nat>
    var shuttingDown: bool
    ghost var calls: seq<QueueCall>

    /** Pending keys are distinct, marked, and not being processed; a marked key is pending or in process. */
    ghost predicate Valid()
      reads this
    {
      && (forall i, j :: 0 <= i < j < |queue| ==> queue[i] != queue[j])
      && (forall k :: k in queue ==> k in dirty && k !in processing)
      && (forall k :: k in dirty ==> k in queue || k in processing)
    }

    constructor ()
      ensures Valid()
      ensures queue == [] && dirty == {} && processing == {} && failures == map[] && !shuttingDown
      ensures calls == []
    {
      queue, dirty, processing, failures, shuttingDown := [], {}, {}, map[], false;
      calls := [];
    }

    function NumRequeues(key: string): nat
      reads this
    {
      Requeues(failures, key)
    }

    /**
     * Add: ignored after shutdown and for a key already marked; otherwise the key
     * is marked and, unless it is being processed, queued at the back.
     */
    method Add(key: string)
      requires Valid()
      modifies this`queue, this`dirty
      ensures Valid()
      ensures if old(shuttingDown) || key in old(dirty) then queue == old(queue) && dirty == old(dirty)
              else dirty == old(dirty) + {key} && queue == old(queue) + (if key in processing then [] else [key])
    {
      if shuttingDown || key in dirty {
        return;
      }
      dirty := dirty + {key};
      if key in processing {
        return;
      }
      queue := queue + [key];
    }

    /**
     * Get, from the moment it returns: the front key moves to processing, or,
     * when the queue is shut down and empty, `quit` is set.
     */
    method Get() returns (key: string, quit: bool)
      requires Valid()
      requires |queue| > 0 || shuttingDown
      modifies this`queue, this`dirty, this`processing, this`calls
      ensures Valid()
      ensures quit <==> |old(queue)| == 0
      ensures quit ==> queue == old(queue) && dirty == old(dirty) && processing == old(processing) && calls == old(calls)
      ensures !quit ==>
        && key == old(queue)[0] && queue == old(queue)[1..]
        && dirty == old(dirty) - {key} && processing == old(processing) + {key}
        && calls == old(calls) + [GetCall(key)]
    {
      if |queue| == 0 {
        return "", true;
      }
      key, quit := queue[0], false;
      queue := queue[1..];
      processing := processing + {key};
      dirty := dirty - {key};
      calls := calls + [GetCall(key)];
    }

    /** Done: the key leaves processing and is queued again if it was re-marked meanwhile. */
    method Done(key: string)
      requires Valid() && key in processing
      modifies this`queue, this`processing, this`calls
      ensures Valid()
      ensures processing == old(processing) - {key}
      ensures queue == old(queue) + (if key in dirty then [key] else [])
      ensures calls == old(calls) + [DoneCall(key)]
    {
      processing := processing - {key};
      if key in dirty {
        queue := queue + [key];
      }
      calls := calls + [DoneCall(key)];
    }

    /** Forget: the key's failure count is cleared. */
    method Forget(key: string)
      modifies this`failures, this`calls
      ensures failures == old(failures) - {key}
      ensures calls == old(calls) + [ForgetCall(key)]
    {
      failures := failures - {key};
      calls := calls + [ForgetCall(key)];
    }

    /** AddRateLimited: the key's failure count goes up by one and the key is added. */
    method AddRateLimited(key: string)
      requires Valid()
      modifies this`failures, this`queue, this`dirty, this`calls
      ensures Valid()
      ensures failures == old(failures)[key := old(NumRequeues(key)) + 1]
      ensures calls == old(calls) + [AddRateLimitedCall(key)]
      ensures if old(shuttingDown) || key in old(dirty) then queue == old(queue) && dirty == old(dirty)
              else dirty == old(dirty) + {key} && queue == old(queue) + (if key in processing then [] else [key])
    {
      failures := failures[key := NumRequeues(key) + 1];
      calls := calls + [AddRateLimitedCall(key)];
      Add(key);
    }

    /** ShutDown: later adds are ignored; pending keys are still handed out. */
    method ShutDown()
      modifies this`shuttingDown
      ensures shuttingDown
    {
      shuttingDown := true;
    }
  }

  // ------------------------------------------------------------------ the worker

  /** A key's remaining work: the number of times it can still be handed to the handler. */
  function Cost(handler: string -> Option<string>, failures: map<string, nat>, key: string): (c: nat)
    ensures 1 <= c <= MaxRetries + 1
  {
    if handler(key).Some? && Requeues(failures, key) < MaxRetries then MaxRetries + 1 - Requeues(failures, key)
    else 1
  }

  /** The remaining work of a list of pending keys. */
  function Work(handler: string -> Option<string>, failures: map<string, nat>, pending: seq<string>): nat
  {
    if |pending| == 0 then 0 else Cost(handler, failures, pending[0]) + Work(handler, failures, pending[1..])
  }

  lemma {:induction false} WorkAppend(handler: string -> Option<string>, failures: map<string, nat>, pending: seq<string>, key: string)
    ensures Work(handler, failures, pending + [key]) == Work(handler, failures, pending) + Cost(handler, failures, key)
    decreases |pending|
  {
    if |pending| > 0 {
      assert (pending + [key])[1..] == pending[1..] + [key];
      WorkAppend(handler, failures, pending[1..], key);
    }
  }

  lemma {:induction false} WorkFrame(handler: string -> Option<string>, f: map<string, nat>, g: map<string, nat>, pending: seq<string>, key: string)
    requires key !in pending
    requires forall k :: k != key ==> Requeues(f, k) == Requeues(g, k)
    ensures Work(handler, f, pending) == Work(handler, g, pending)
    decreases |pending|
  {
    if |pending| > 0 {
      WorkFrame(handler, f, g, pending[1..], key);
    }
  }

  /** The controller: a queue and the handler it runs on every key. */
  class Controller {
    const queue: WorkQueue
    const eventHandler: string -> Option<string>
    const resourceType: string
    var handled: seq<string>

    constructor (queue: WorkQueue, handler: string -> Option<string>, resourceType: string)
      ensures this.queue == queue && eventHandler == handler && this.resourceType == resourceType
      ensures handled == []
    {
      this.queue := queue;
      eventHandler := handler;
      this.resourceType := resourceType;
      handled := [];
    }

    ghost predicate Valid()
      reads this, queue
    {
      queue.Valid()
    }

    /**
     * handleErr: on success the key is forgotten; on an error it is re-added
     * rate-limited while it has been requeued fewer than 5 times, and forgotten
     * (dropped) after that. Exactly one of Forget and AddRateLimited is called.
     */
    method HandleErr(err: Option<string>, key: string)
      requires Valid()
      modifies queue`failures, queue`queue, queue`dirty, queue`calls
      ensures Valid()
      ensures var retry := err.Some? && old(queue.NumRequeues(key)) < MaxRetries;
        && queue.calls == old(queue.calls) + [if retry then AddRateLimitedCall(key) else ForgetCall(key)]
        && queue.failures == (if retry then old(queue.failures)[key := old(queue.NumRequeues(key)) + 1]
                              else old(queue.failures) - {key})
        && (!retry || queue.shuttingDown || key in old(queue.dirty) ==>
              queue.queue == old(queue.queue) && queue.dirty == old(queue.dirty))
        && (retry && !queue.shuttingDown && key !in old(queue.dirty) ==>
              && queue.dirty == old(queue.dirty) + {key}
              && queue.queue == old(queue.queue) + (if key in queue.processing then [] else [key]))
    {
      if err.None? {
        queue.Forget(key);
        return;
      }
      if queue.NumRequeues(key) < MaxRetries {
        queue.AddRateLimited(key);
        return;
      }
      queue.Forget(key);
    }

    /**
     * processNextItem: false, touching nothing, once the queue is shut down and
     * empty; otherwise one key is taken, handed to the handler once, passed to
     * handleErr once and marked done once, and the result is true.
     */
    method ProcessNextItem() returns (more: bool)
      requires Valid()
      requires |queue.queue| > 0 || queue.shuttingDown
      modifies queue`queue, queue`dirty, queue`processing, queue`failures, queue`calls, this`handled
      ensures Valid()
      ensures more <==> |old(queue.queue)| > 0
      ensures !more ==>
        && queue.calls == old(queue.calls) && handled == old(handled)
        && queue.failures == old(queue.failures) && queue.queue == old(queue.queue)
        && queue.dirty == old(queue.dirty) && queue.processing == old(queue.processing)
      ensures more ==>
        var key := old(queue.queue)[0];
        var retry := eventHandler(key).Some? && old(queue.NumRequeues(key)) < MaxRetries;
        && handled == old(handled) + [key]
        && queue.calls == old(queue.calls)
             + [GetCall(key), if retry then AddRateLimitedCall(key) else ForgetCall(key), DoneCall(key)]
        && queue.failures == (if retry then old(queue.failures)[key := old(queue.NumRequeues(key)) + 1]
                              else old(queue.failures) - {key})
        && queue.queue == old(queue.queue)[1..] + (if retry && !queue.shuttingDown then [key] else [])
        && queue.processing == old(queue.processing)
    {
      var key, quit := queue.Get();
      if quit {
        return false;
      }
      handled := handled + [key];
      var err := eventHandler(key);
      HandleErr(err, key);
      queue.Done(key);
      return true;
    }

    /**
     * runWorker: processes keys until processNextItem reports shutdown, or until
     * nothing is pending, where the real worker would wait inside Get.
     */
    method RunWorker()
      requires Valid()
      modifies queue`queue, queue`dirty, queue`processing, queue`failures, queue`calls, this`handled
      ensures Valid()
      ensures queue.queue == []
      ensures queue.processing == old(queue.processing)
      ensures |handled| <= old(|handled|) + old(Work(eventHandler, queue.failures, queue.queue))
      ensures !queue.shuttingDown ==> |handled| == old(|handled|) + old(Work(eventHandler, queue.failures, queue.queue))
    {
      ghost var budget := |handled| + Work(eventHandler, queue.failures, queue.queue);
      var more := true;
      while more && (|queue.queue| > 0 || queue.shuttingDown)
        invariant Valid()
        invariant queue.processing == old(queue.processing)
        invariant !more ==> queue.queue == []
        invariant |handled| + Work(eventHandler, queue.failures, queue.queue) <= budget
        invariant !queue.shuttingDown ==> |handled| + Work(eventHandler, queue.failures, queue.queue) == budget
        decreases Work(eventHandler, queue.failures, queue.queue), more
      {
        ghost var pending, failures := queue.queue, queue.failures;
        more := ProcessNextItem();
        if more {
          var key := pending[0];
          var rest := pending[1..];
          assert pending == [key] + rest;
          assert key !in rest;
          assert forall k :: k != key ==> Requeues(failures, k) == Requeues(queue.failures, k);
          WorkFrame(eventHandler, failures, queue.failures, rest, key);
          assert Work(eventHandler, failures, pending) == Cost(eventHandler, failures, key) + Work(eventHandler, failures, rest);
          if queue.queue == rest + [key] {
            WorkAppend(eventHandler, queue.failures, rest, key);
            assert Cost(eventHandler, queue.failures, key) == Cost(eventHandler, failures, key) - 1;
          } else {
            assert queue.queue == rest;
          }
        } else {
          assert queue.queue == [];
        }
      }
    }
  }

  /**
   * The retry scenario of the controller's own test: a key added rate-limited
   * and then handled successfully is still handed out by Get, with its failure
   * count cleared; once it fails it is handed out again by the next Get.
   */
  method RetryScenario(key: string) returns (first: string, countAfterSuccess: nat, requeued: string)
    ensures first == key && requeued == key
    ensures countAfterSuccess == 0
  {
    var q := new WorkQueue();
    var c := new Controller(q, k => Some("mockError"), "pod");
    q.AddRateLimited(key);
    c.HandleErr(None, key);
    countAfterSuccess := q.NumRequeues(key);
    var quit;
    first, quit := q.Get();
    q.Done(key);
    c.HandleErr(Some("mockError"), key);
    requeued, quit := q.Get();
  }

  /**
   * A key whose handler always fails, alone on a live queue: the worker hands
   * it to the handler six times, the first attempt and five retries, and then
   * drops it.
   */
  method AlwaysFailingKey(key: string) returns (attempts: nat)
    ensures attempts == MaxRetries + 1
  {
    var q := new WorkQueue();
    q.Add(key);
    var c := new Controller(q, k => Some("mockError"), "pod");
    assert Work(c.eventHandler, q.failures, q.queue) == MaxRetries + 1;
    c.RunWorker();
    attempts := |c.handled|;
  }
}
