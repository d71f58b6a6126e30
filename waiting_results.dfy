/**
 * The driver-side state of a node channel that waits for the results of a dispatch:
 * reading the node's answer, the per-task resubmit rule, the return reason, and the
 * transition taken afterwards.
 */
module WaitingResults {

  datatype Option<T> = None | Some(value: T)

  datatype NodeTransition = ToWaitingResults | ToIdle | ToIdlePeer

  datatype ReturnReason = ResultsReceived | NodeProcessingError | DriverProcessingError

  /** A dispatched task: its position in the job, its resubmit count and limit, and whether it is marked for resubmission. */
  datatype TaskInfo = TaskInfo(position: int, resubmitCount: int, maxResubmits: int, resubmitted: bool)

  /** What the node sent back: the header parameters that matter here and the result data. */
  datatype Received = Received(
    nodeException: Option<string>,
    resubmitPositions: Option<seq<int>>,
    data: Option<seq<nat>>,
    requeue: bool,
    systemInfo: Option<nat>)

  /** What the dispatch was handed: its result data, or the throwable the node reported. */
  datatype Delivery = Data(data: Option<seq<nat>>) | Error(message: string)

  /** A task is granted a resubmission when its position was listed and its incremented count is within its limit. */
  predicate Granted(t: TaskInfo, positions: set<int>)
  {
    t.position in positions && t.resubmitCount + 1 <= t.maxResubmits
  }

  /** A task after the resubmit pass: a listed task has its count incremented, and is marked when granted. */
  function Bump(t: TaskInfo, positions: set<int>): (u: TaskInfo)
    ensures u.position == t.position && u.maxResubmits == t.maxResubmits
    ensures t.position in positions ==> u.resubmitCount == t.resubmitCount + 1
    ensures t.position !in positions ==> u == t
    ensures u.resubmitted <==> t.resubmitted || Granted(t, positions)
  {
    if t.position in positions then
      t.(resubmitCount := t.resubmitCount + 1, resubmitted := t.resubmitted || t.resubmitCount + 1 <= t.maxResubmits)
    else t
  }

  /** The number of tasks the pass grants a resubmission. */
  function CountGranted(ts: seq<TaskInfo>, positions: set<int>): (c: nat)
    ensures c <= |ts|
  {
    if ts == [] then 0
    else CountGranted(ts[..|ts| - 1], positions) + (if Granted(ts[|ts| - 1], positions) then 1 else 0)
  }

  /** The resubmit count is zero exactly when no task is granted a resubmission. */
  lemma {:induction false} CountGrantedZero(ts: seq<TaskInfo>, positions: set<int>)
    ensures CountGranted(ts, positions) == 0 <==> forall i :: 0 <= i < |ts| ==> !Granted(ts[i], positions)
  {
    if ts != [] {
      CountGrantedZero(ts[..|ts| - 1], positions);
      assert forall i :: 0 <= i < |ts| - 1 ==> ts[..|ts| - 1][i] == ts[i];
    }
  }

  /** The positions of an optional array, as a set (the resubmit set is null when the array is). */
  function PositionSet(positions: seq<int>): (s: set<int>)
    ensures forall p :: p in s <==> p in positions
  {
    set p | p in positions
  }

  /** The part of a dispatch and its channel that processing the node's results changes. */
  datatype DispatchState = DispatchState(
    returnReason: Option<ReturnReason>,
    deliveries: seq<Delivery>,
    tasks: seq<TaskInfo>,
    resubmitStats: seq<nat>,
    nodeInfo: Option<nat>)

  /** The tasks after the resubmit loop over the listed positions. */
  function Bumped(ts: seq<TaskInfo>, positions: set<int>): (r: seq<TaskInfo>)
    ensures |r| == |ts|
    ensures forall i :: 0 <= i < |ts| ==> r[i] == Bump(ts[i], positions)
  {
    seq(|ts|, i requires 0 <= i < |ts| => Bump(ts[i], positions))
  }

  /**
   * What `processResults` does to the dispatch: a node exception fails the dispatch with
   * it; results for a cancelled job are dropped; otherwise the return reason becomes
   * RESULTS_RECEIVED unless one was set, the listed tasks of an unexpired dispatch are
   * resubmitted within their limits, and the data is delivered. The node's system
   * information, when sent, is recorded whatever happened before.
   */
  function ResultsProcessed(received: Received, jobCancelled: bool, bundleExpired: bool, d: DispatchState): (e: DispatchState)
    ensures e.nodeInfo == (if received.systemInfo.Some? then received.systemInfo else d.nodeInfo)
    ensures received.nodeException.Some? ==>
      e.returnReason == Some(NodeProcessingError)
      && e.deliveries == d.deliveries + [Error(received.nodeException.value)]
      && e.tasks == d.tasks && e.resubmitStats == d.resubmitStats
    ensures received.nodeException.None? && jobCancelled ==>
      e.returnReason == d.returnReason && e.deliveries == d.deliveries
      && e.tasks == d.tasks && e.resubmitStats == d.resubmitStats
    ensures received.nodeException.None? && !jobCancelled ==>
      e.returnReason == (if d.returnReason.None? then Some(ResultsReceived) else d.returnReason)
      && e.deliveries == d.deliveries + [Data(received.data)]
      && (bundleExpired || received.resubmitPositions.None? ==> e.tasks == d.tasks && e.resubmitStats == d.resubmitStats)
      && (!bundleExpired && received.resubmitPositions.Some? ==>
            var ps := PositionSet(received.resubmitPositions.value);
            var count := CountGranted(d.tasks, ps);
            e.tasks == Bumped(d.tasks, ps)
            && e.resubmitStats == d.resubmitStats + (if count > 0 then [count] else []))
  {
    var info := if received.systemInfo.Some? then received.systemInfo else d.nodeInfo;
    if received.nodeException.Some? then
      d.(returnReason := Some(NodeProcessingError), deliveries := d.deliveries + [Error(received.nodeException.value)], nodeInfo := info)
    else if jobCancelled then
      d.(nodeInfo := info)
    else
      var reason := if d.returnReason.None? then Some(ResultsReceived) else d.returnReason;
      var resubmit := !bundleExpired && received.resubmitPositions.Some?;
      var ps := if resubmit then PositionSet(received.resubmitPositions.value) else {};
      var count := CountGranted(d.tasks, ps);
      DispatchState(reason, d.deliveries + [Data(received.data)],
        if resubmit then Bumped(d.tasks, ps) else d.tasks,
        if resubmit && count > 0 then d.resubmitStats + [count] else d.resubmitStats,
        info)
  }

  /**
   * Processing keeps every task's position and limit and raises its resubmit count by at
   * most one; a task is newly marked only when granted, and only when the node raised no
   * exception, the job is not cancelled and the dispatch has not expired.
   */
  lemma ProcessedTasks(received: Received, jobCancelled: bool, bundleExpired: bool, d: DispatchState, i: nat)
    requires i < |d.tasks|
    ensures var e := ResultsProcessed(received, jobCancelled, bundleExpired, d);
      |e.tasks| == |d.tasks|
      && e.tasks[i].position == d.tasks[i].position && e.tasks[i].maxResubmits == d.tasks[i].maxResubmits
      && d.tasks[i].resubmitCount <= e.tasks[i].resubmitCount <= d.tasks[i].resubmitCount + 1
      && (e.tasks[i].resubmitted && !d.tasks[i].resubmitted ==>
            received.nodeException.None? && !jobCancelled && !bundleExpired && received.resubmitPositions.Some?
            && Granted(d.tasks[i], PositionSet(received.resubmitPositions.value)))
  {
  }

  /**
   * The statistics gain at most one entry per processing: the positive number of tasks
   * granted a resubmission, never more than the dispatch holds.
   */
  lemma ProcessedStats(received: Received, jobCancelled: bool, bundleExpired: bool, d: DispatchState)
    ensures var e := ResultsProcessed(received, jobCancelled, bundleExpired, d);
      (e.resubmitStats == d.resubmitStats)
      || (|e.resubmitStats| == |d.resubmitStats| + 1 && e.resubmitStats[..|d.resubmitStats|] == d.resubmitStats
          && 0 < e.resubmitStats[|d.resubmitStats|] <= |d.tasks|)
  {
  }

  /** The channel context of a node together with the dispatch it is waiting for. */
  class NodeChannelContext {
    /** Whether the context still holds its dispatch and its last message. */
    var hasBundle: bool
    var hasMessage: bool
    var peer: bool
    var nodeInfo: Option<nat>
    /** The dispatch: its tasks, return reason, what it received, whether it is requeued. */
    var tasks: seq<TaskInfo>
    var returnReason: Option<ReturnReason>
    var deliveries: seq<Delivery>
    var bundleExpired: bool
    var jobCancelled: bool
    var requeued: bool
    /** The resubmit counts reported to the statistics. */
    var resubmitStats: seq<nat>

    /** The part of the context that processing the results changes. */
    function Dispatch(): DispatchState
      reads this
    {
      DispatchState(returnReason, deliveries, tasks, resubmitStats, nodeInfo)
    }

    constructor(peer: bool, tasks: seq<TaskInfo>, bundleExpired: bool, jobCancelled: bool)
      ensures this.peer == peer && this.tasks == tasks && this.bundleExpired == bundleExpired && this.jobCancelled == jobCancelled
      ensures hasBundle && hasMessage && nodeInfo == None && returnReason == None
      ensures deliveries == [] && !requeued && resubmitStats == []
    {
      this.peer := peer;
      this.tasks := tasks;
      this.bundleExpired := bundleExpired;
      this.jobCancelled := jobCancelled;
      hasBundle := true;
      hasMessage := true;
      nodeInfo := None;
      returnReason := None;
      deliveries := [];
      requeued := false;
      resubmitStats := [];
    }

    /**
     * `performTransition`: until the whole message is read the channel keeps waiting;
     * then the message is processed.
     */
    method PerformTransition(complete: bool, received: Received) returns (t: NodeTransition)
      modifies this
      ensures !complete ==> t == ToWaitingResults && unchanged(this)
      ensures complete ==> t == (if peer then ToIdlePeer else ToIdle) && !hasBundle && !hasMessage
      ensures complete ==> Dispatch() == ResultsProcessed(received, old(jobCancelled), old(bundleExpired), old(Dispatch()))
      ensures complete ==> requeued == (old(requeued) || received.requeue)
      ensures unchanged(this`peer, this`bundleExpired, this`jobCancelled)
    {
      if !complete {
        return ToWaitingResults;
      }
      t := Process(received);
    }

    /**
     * `process`: the results are processed, the context lets go of its dispatch and
     * message, the dispatch is requeued when the node asked for it, and the channel
     * becomes idle.
     */
    method Process(received: Received) returns (t: NodeTransition)
      modifies this
      ensures t == (if peer then ToIdlePeer else ToIdle)
      ensures !hasBundle && !hasMessage
      ensures requeued == (old(requeued) || received.requeue)
      ensures Dispatch() == ResultsProcessed(received, old(jobCancelled), old(bundleExpired), old(Dispatch()))
      ensures unchanged(this`peer, this`bundleExpired, this`jobCancelled)
    {
      var requeue := ProcessResults(received);
      hasBundle := false;
      if requeue {
        requeued := true;
      }
      hasMessage := false;
      t := if peer then ToIdlePeer else ToIdle;
    }

    /**
     * `processResults`: a node exception fails the dispatch with it; results for a
     * cancelled job are dropped; otherwise the return reason becomes RESULTS_RECEIVED
     * unless one was set, the listed tasks of an unexpired dispatch are resubmitted
     * within their limits, and the data is delivered. The node's system information,
     * when sent, is recorded; the node's requeue flag is returned.
     */
    method ProcessResults(received: Received) returns (requeue: bool)
      modifies this`returnReason, this`deliveries, this`tasks, this`resubmitStats, this`nodeInfo
      ensures requeue == received.requeue
      ensures Dispatch() == ResultsProcessed(received, jobCancelled, bundleExpired, old(Dispatch()))
    {
      if received.nodeException.Some? {
        returnReason := Some(NodeProcessingError);
        deliveries := deliveries + [Error(received.nodeException.value)];
      } else if jobCancelled {
      } else {
        if returnReason.None? {
          returnReason := Some(ResultsReceived);
        }
        if !bundleExpired && received.resubmitPositions.Some? {
          var count := ResubmitListed(PositionSet(received.resubmitPositions.value));
          if count > 0 {
            resubmitStats := resubmitStats + [count];
          }
        }
        deliveries := deliveries + [Data(received.data)];
      }
      requeue := received.requeue;
      if received.systemInfo.Some? {
        nodeInfo := received.systemInfo;
      }
    }

    /**
     * The resubmit loop: every task whose position is listed has its resubmit count
     * incremented, and is resubmitted when the new count is within its limit.
     */
    method ResubmitListed(positions: set<int>) returns (count: nat)
      modifies this`tasks
      ensures tasks == Bumped(old(tasks), positions)
      ensures count == CountGranted(old(tasks), positions)
    {
      count := 0;
      var i := 0;
      ghost var original := tasks;
      while i < |tasks|
        invariant 0 <= i <= |tasks| == |original|
        invariant forall k :: i <= k < |tasks| ==> tasks[k] == original[k]
        invariant forall k :: 0 <= k < i ==> tasks[k] == Bump(original[k], positions)
        invariant count == CountGranted(original[..i], positions)
      {
        var t := tasks[i];
        if t.position in positions {
          var c := t.resubmitCount + 1;
          tasks := tasks[i := t.(resubmitCount := c, resubmitted := t.resubmitted || c <= t.maxResubmits)];
          if c <= t.maxResubmits {
            count := count + 1;
          }
        }
        assert original[..i + 1][..i] == original[..i];
        assert CountGranted(original[..i + 1], positions) == CountGranted(original[..i], positions) + (if Granted(original[i], positions) then 1 else 0);
        i := i + 1;
      }
      assert original[..i] == original;
    }
  }

  /** A task is marked for resubmission after the pass exactly when it was before or is granted now. */
  lemma ResubmitRule(ts: seq<TaskInfo>, positions: seq<int>, i: nat)
    requires i < |ts|
    ensures var u := Bump(ts[i], PositionSet(positions));
      (u.resubmitted <==> ts[i].resubmitted || (ts[i].position in positions && ts[i].resubmitCount + 1 <= ts[i].maxResubmits))
      && (ts[i].position !in positions ==> u == ts[i])
  {
  }
}
