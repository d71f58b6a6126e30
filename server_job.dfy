/**
 * A job as the driver holds it: its task list, the client bundles it was built from,
 * the set of node bundles it is dispatched in, its statuses, and how dispatch, results,
 * requeue, cancellation and the end of a client bundle change them.
 */
module ServerJobs {
  import opened Lists

  datatype Option<T> = None | Some(value: T)

  /** Exceptions a job operation may throw. */
  datatype Failure = IllegalArgument(message: string) | JobEnded(message: string) | IndexOutOfBounds(index: nat)
  datatype Result<T> = Ok(value: T) | Fail(failure: Failure)

  /** The state of one server task. */
  datatype TaskState = TaskPending | TaskResubmit | TaskResult | TaskException | TaskCancelled

  /** What a task receives: the location of its result data, or the throwable raised for it. */
  datatype Outcome = Location(data: nat) | Thrown(message: string)

  /** A server task: its identity and the client bundle it came in. */
  datatype ServerTask = ServerTask(id: nat, owner: nat)

  /** A bundle received from a client, with its tasks and its count of pending tasks. */
  datatype ClientBundle = ClientBundle(id: nat, taskList: seq<ServerTask>, pendingCount: int)

  /** A dispatch of part of the job to a node. */
  datatype NodeBundle = NodeBundle(id: nat, taskList: seq<ServerTask>, expired: bool, offline: bool)

  /** The task counts of the job header. */
  datatype JobHeader = JobHeader(taskCount: int, currentTaskCount: int)

  datatype JobStatus = New | Executing | Done
  datatype SubmissionStatus = Submitted | Pending | SubmissionExecuting | Complete | Failed | Ended

  /** The notifications a job emits, in order. */
  datatype JobEvent =
    | Dispatched(bundleId: nat)
    | Returned(bundleId: nat)
    | Updated(headerChanged: bool)
    | ResultsDelivered(byBundle: map<nat, set<nat>>, thrown: Option<string>)
    | Requeued
    | DispatchesCancelled(bundleIds: set<nat>)
    | TasksCancelled(byBundle: map<nat, set<nat>>)
    | ReservationsReleased

  // ---------------------------------------------------------------------------
  // Lists

  /** The list after `addAll(0, added)` (`after` false) or `addAll(added)` (`after` true). */
  function Merged(existing: seq<ServerTask>, added: seq<ServerTask>, after: bool): (r: seq<ServerTask>)
    ensures |r| == |existing| + |added|
    ensures multiset(r) == multiset(existing) + multiset(added)
    ensures after ==> r[..|existing|] == existing && r[|existing|..] == added
    ensures !after ==> r[..|added|] == added && r[|added|..] == existing
  {
    if after then existing + added else added + existing
  }

  /** `List.removeAll(xs)`: the list without every element that occurs in `xs`, in order. */
  function RemoveAll(s: seq<ServerTask>, xs: seq<ServerTask>): (r: seq<ServerTask>)
    ensures |r| <= |s|
    ensures forall y :: y in r <==> y in s && y !in xs
  {
    if s == [] then []
    else
      var rest := RemoveAll(s[1..], xs);
      assert forall y :: y in s <==> y == s[0] || y in s[1..];
      if s[0] in xs then rest else [s[0]] + rest
  }

  /** Some client bundle still has pending tasks. */
  predicate AnyPending(bundles: seq<ClientBundle>)
  {
    exists i :: 0 <= i < |bundles| && bundles[i].pendingCount > 0
  }

  /** The number of tasks of bundle `id` among those received. */
  function ReceivedCount(received: map<nat, set<nat>>, id: nat): nat
  {
    if id in received then |received[id]| else 0
  }

  /**
   * The client bundles after `resultReceived(tasks)` was called on each bundle that got
   * tasks back: the pending count of a bundle drops by the number of its tasks received.
   */
  function Lowered(bundles: seq<ClientBundle>, received: map<nat, set<nat>>): (r: seq<ClientBundle>)
    ensures |r| == |bundles|
    ensures forall i :: 0 <= i < |r| ==> r[i].id == bundles[i].id && r[i].taskList == bundles[i].taskList
    ensures forall i :: 0 <= i < |r| ==> r[i].pendingCount + ReceivedCount(received, bundles[i].id) == bundles[i].pendingCount
  {
    seq(|bundles|, i requires 0 <= i < |bundles| =>
      bundles[i].(pendingCount := bundles[i].pendingCount - ReceivedCount(received, bundles[i].id)))
  }

  /** Receiving results never makes a job pending that was not. */
  lemma LoweredKeepsDone(bundles: seq<ClientBundle>, received: map<nat, set<nat>>)
    ensures AnyPending(Lowered(bundles, received)) ==> AnyPending(bundles)
    ensures received == map[] ==> Lowered(bundles, received) == bundles
  {
    var r := Lowered(bundles, received);
    if AnyPending(r) {
      var i :| 0 <= i < |r| && r[i].pendingCount > 0;
      assert bundles[i].pendingCount > 0;
    }
    if received == map[] {
      assert forall i :: 0 <= i < |r| ==> r[i] == bundles[i];
    }
  }

  /**
   * When every client bundle receives at least as many tasks as it has pending, nothing is
   * pending any more; a bundle that receives fewer stays pending.
   */
  lemma LoweredClearsPending(bundles: seq<ClientBundle>, received: map<nat, set<nat>>)
    ensures (forall i :: 0 <= i < |bundles| ==> bundles[i].pendingCount <= ReceivedCount(received, bundles[i].id))
      <==> !AnyPending(Lowered(bundles, received))
  {
    var r := Lowered(bundles, received);
    if !AnyPending(r) {
      forall i | 0 <= i < |bundles|
        ensures bundles[i].pendingCount <= ReceivedCount(received, bundles[i].id)
      {
        assert r[i].pendingCount <= 0;
      }
    }
  }

  /** Tasks grouped by the client bundle they came in: bundle id to the ids of its tasks. */
  function Group(ts: seq<ServerTask>): map<nat, set<nat>>
  {
    if ts == [] then map[]
    else
      var g := Group(ts[..|ts| - 1]);
      var t := ts[|ts| - 1];
      g[t.owner := (if t.owner in g then g[t.owner] else {}) + {t.id}]
  }

  /** Every task appears under its own bundle, and the grouping holds nothing else. */
  lemma {:induction false} GroupMeaning(ts: seq<ServerTask>)
    ensures forall t :: t in ts ==> t.owner in Group(ts) && t.id in Group(ts)[t.owner]
    ensures forall o, id :: o in Group(ts) && id in Group(ts)[o] ==> ServerTask(id, o) in ts
  {
    if ts != [] {
      GroupMeaning(ts[..|ts| - 1]);
      assert ts == ts[..|ts| - 1] + [ts[|ts| - 1]];
    }
  }

  // ---------------------------------------------------------------------------
  // Passes over a task list

  function StateOf(states: map<nat, TaskState>, id: nat): TaskState
  {
    if id in states then states[id] else TaskPending
  }

  /** A task that has a final state. */
  predicate IsDone(s: TaskState)
  {
    s == TaskResult || s == TaskException || s == TaskCancelled
  }

  /**
   * The loops that walk a task list: deliver results (`Deliver`), route every task
   * untouched (`Route`), cancel the unfinished ones (`Cancel`), and turn RESUBMIT back
   * into PENDING while collecting the pending ones (`Requeue`).
   */
  datatype Pass = Deliver(given: seq<Outcome>) | Route | Cancel | Requeue

  /** The effect of a pass on one task: its new state, what it receives, whether it is collected. */
  datatype Effect = Effect(state: TaskState, outcome: Option<Outcome>, keep: bool)

  predicate Fits(p: Pass, ts: seq<ServerTask>)
  {
    p.Deliver? ==> |ts| <= |p.given|
  }

  /** What the pass does to the `j`-th task when its state is `s`. */
  function Step(p: Pass, j: nat, s: TaskState): (e: Effect)
    requires p.Deliver? ==> j < |p.given|
    ensures p.Deliver? ==> (s == TaskResubmit <==> !e.keep)
    ensures p.Deliver? && s != TaskResubmit ==> e.outcome == Some(p.given[j])
    ensures p.Deliver? && s == TaskResubmit ==> e.state == TaskPending && e.outcome == None
    ensures p.Route? ==> e == Effect(s, None, true)
    ensures p.Cancel? ==> (e.keep <==> !IsDone(s)) && IsDone(e.state) && e.outcome == None
    ensures p.Requeue? ==> e.state != TaskResubmit && (e.keep <==> e.state == TaskPending) && e.outcome == None
    ensures p.Requeue? && s != TaskResubmit ==> e.state == s
  {
    match p
    case Deliver(given) =>
      if s == TaskResubmit then Effect(TaskPending, None, false)
      else Effect(if given[j].Location? then TaskResult else TaskException, Some(given[j]), true)
    case Route => Effect(s, None, true)
    case Cancel => if IsDone(s) then Effect(s, None, false) else Effect(TaskCancelled, None, true)
    case Requeue =>
      var s' := if s == TaskResubmit then TaskPending else s;
      Effect(s', None, s' == TaskPending)
  }

  /** The task states, the outcomes and the collected tasks after a pass over the first `n` tasks. */
  datatype Walk = Walk(states: map<nat, TaskState>, outcomes: map<nat, Outcome>, kept: seq<ServerTask>)

  function Apply(p: Pass, ts: seq<ServerTask>, n: nat, states: map<nat, TaskState>, outcomes: map<nat, Outcome>): Walk
    requires n <= |ts| && Fits(p, ts)
  {
    if n == 0 then Walk(states, outcomes, [])
    else
      var w := Apply(p, ts, n - 1, states, outcomes);
      var t := ts[n - 1];
      var e := Step(p, n - 1, StateOf(w.states, t.id));
      Walk(w.states[t.id := e.state],
           if e.outcome.Some? then w.outcomes[t.id := e.outcome.value] else w.outcomes,
           if e.keep then w.kept + [t] else w.kept)
  }

  predicate DistinctIds(ts: seq<ServerTask>)
  {
    forall i, j :: 0 <= i < j < |ts| ==> ts[i].id != ts[j].id
  }

  predicate Untouched(ts: seq<ServerTask>, n: nat, id: nat)
    requires n <= |ts|
  {
    forall j :: 0 <= j < n ==> ts[j].id != id
  }

  /** A pass leaves alone every task it does not reach. */
  lemma {:induction false} ApplyUntouched(p: Pass, ts: seq<ServerTask>, n: nat, states: map<nat, TaskState>, outcomes: map<nat, Outcome>, id: nat)
    requires n <= |ts| && Fits(p, ts) && Untouched(ts, n, id)
    ensures var w := Apply(p, ts, n, states, outcomes);
      StateOf(w.states, id) == StateOf(states, id)
      && (id in w.outcomes <==> id in outcomes)
      && (id in outcomes ==> w.outcomes[id] == outcomes[id])
  {
    if n > 0 {
      ApplyUntouched(p, ts, n - 1, states, outcomes, id);
    }
  }

  /** The last task a pass reaches is treated according to the state it had before the pass. */
  lemma ApplyAtLast(p: Pass, ts: seq<ServerTask>, n: nat, states: map<nat, TaskState>, outcomes: map<nat, Outcome>)
    requires 0 < n <= |ts| && Fits(p, ts) && DistinctIds(ts)
    ensures var w := Apply(p, ts, n, states, outcomes);
      var e := Step(p, n - 1, StateOf(states, ts[n - 1].id));
      StateOf(w.states, ts[n - 1].id) == e.state
      && (ts[n - 1] in w.kept <==> e.keep)
      && (e.outcome.Some? ==> ts[n - 1].id in w.outcomes && w.outcomes[ts[n - 1].id] == e.outcome.value)
  {
    ApplyKeepsListed(p, ts, n - 1, states, outcomes);
    ApplyUntouched(p, ts, n - 1, states, outcomes, ts[n - 1].id);
    forall i | 0 <= i < n - 1
      ensures ts[i] != ts[n - 1]
    {
      assert ts[i].id != ts[n - 1].id;
    }
    assert ts[n - 1] !in multiset(ts[..n - 1]);
  }

  /**
   * A pass over distinct tasks treats each task according to the state it had before
   * the pass, and collects it exactly when the step keeps it.
   */
  lemma {:induction false} ApplyAt(p: Pass, ts: seq<ServerTask>, n: nat, states: map<nat, TaskState>, outcomes: map<nat, Outcome>, j: nat)
    requires n <= |ts| && Fits(p, ts) && DistinctIds(ts) && j < n
    ensures var w := Apply(p, ts, n, states, outcomes);
      var e := Step(p, j, StateOf(states, ts[j].id));
      StateOf(w.states, ts[j].id) == e.state
      && (ts[j] in w.kept <==> e.keep)
      && (e.outcome.Some? ==> ts[j].id in w.outcomes && w.outcomes[ts[j].id] == e.outcome.value)
  {
    if j == n - 1 {
      ApplyAtLast(p, ts, n, states, outcomes);
    } else {
      ApplyAt(p, ts, n - 1, states, outcomes, j);
      assert ts[j].id != ts[n - 1].id;
    }
  }

  /** Every pass collects tasks of the list only, each at most as often as the list holds it. */
  lemma {:induction false} ApplyKeepsListed(p: Pass, ts: seq<ServerTask>, n: nat, states: map<nat, TaskState>, outcomes: map<nat, Outcome>)
    requires n <= |ts| && Fits(p, ts)
    ensures var w := Apply(p, ts, n, states, outcomes);
      |w.kept| <= n && multiset(w.kept) <= multiset(ts[..n])
  {
    if n > 0 {
      ApplyKeepsListed(p, ts, n - 1, states, outcomes);
      var before := Apply(p, ts, n - 1, states, outcomes).kept;
      var after := Apply(p, ts, n, states, outcomes).kept;
      var t := ts[n - 1];
      assert ts[..n] == ts[..n - 1] + [t];
      assert multiset(ts[..n]) == multiset(ts[..n - 1]) + multiset{t};
      assert after == before || after == before + [t];
      if after != before {
        assert multiset(after) == multiset(before) + multiset{t};
      }
    }
  }

  // ---------------------------------------------------------------------------
  // Copy of the first tasks

  /** The number of tasks a copy takes: `nbTasks`, capped at the number of tasks. */
  function TakeCount(nbTasks: nat, size: nat): (k: nat)
    ensures k <= size && k <= nbTasks && (k == nbTasks || k == size)
  {
    if nbTasks > size then size else nbTasks
  }

  datatype Split = Split(copy: JobHeader, rest: JobHeader)

  /**
   * The headers of the copy and of the job after `copy` takes `k` tasks: when the job
   * counts more than `k` current tasks the copy counts `k` and the job the rest;
   * otherwise the copy keeps the job's counts and the job counts none.
   */
  function SplitHeader(h: JobHeader, k: nat): (s: Split)
    ensures s.rest.taskCount == h.taskCount
    ensures h.currentTaskCount > k ==>
      s.copy == JobHeader(k, k) && s.copy.currentTaskCount + s.rest.currentTaskCount == h.currentTaskCount
    ensures h.currentTaskCount <= k ==> s.copy == h && s.rest.currentTaskCount == 0
  {
    if h.currentTaskCount > k then
      Split(JobHeader(k, k), h.(currentTaskCount := h.currentTaskCount - k))
    else
      Split(h, h.(currentTaskCount := 0))
  }

  /** A dispatch built by `copy`: its header and its tasks. */
  datatype JobCopy = JobCopy(header: JobHeader, tasks: seq<ServerTask>)

  // ---------------------------------------------------------------------------
  // The result guard

  /**
   * The guard of `resultsReceived` as written: it dereferences the bundle even though the
   * line before allows it to be null; None stands for the NullPointerException.
   */
  function DiscardGuardAsWritten(jobExpired: bool, cancelled: bool, bundle: Option<NodeBundle>): (b: Option<bool>)
  {
    if jobExpired || cancelled then Some(true)
    else if bundle.None? then None
    else Some(bundle.value.expired && bundle.value.offline)
  }

  /** The guard with the null bundle handled: only an expired, offline bundle discards results. */
  function DiscardGuard(jobExpired: bool, cancelled: bool, bundle: Option<NodeBundle>): (b: bool)
    ensures b <==> jobExpired || cancelled || (bundle.Some? && bundle.value.expired && bundle.value.offline)
  {
    jobExpired || cancelled || (bundle.Some? && bundle.value.expired && bundle.value.offline)
  }

  /** With no bundle, a job that is neither expired nor cancelled fails in the guard as written. */
  lemma NullBundleFails()
    ensures DiscardGuardAsWritten(false, false, None) == None
    ensures !DiscardGuard(false, false, None)
  {
  }

  /** Wherever the guard as written does not fail, the corrected guard agrees with it. */
  lemma DiscardGuardAgrees(jobExpired: bool, cancelled: bool, bundle: Option<NodeBundle>)
    ensures DiscardGuardAsWritten(jobExpired, cancelled, bundle).Some? ==>
      DiscardGuardAsWritten(jobExpired, cancelled, bundle).value == DiscardGuard(jobExpired, cancelled, bundle)
    ensures DiscardGuardAsWritten(jobExpired, cancelled, bundle).None? <==> !jobExpired && !cancelled && bundle.None?
  {
  }

  /**
   * The tasks `taskCompleted` hands back to the job: for a non-broadcast job, the pending
   * tasks of the returned dispatch after RESUBMIT was turned into PENDING.
   */
  function ReturnedTasks(broadcast: bool, bundle: Option<NodeBundle>, states: map<nat, TaskState>, outcomes: map<nat, Outcome>): Walk
  {
    if !broadcast && bundle.Some? then
      Apply(Requeue, bundle.value.taskList, |bundle.value.taskList|, states, outcomes)
    else Walk(states, outcomes, [])
  }

  /**
   * The walk `resultsReceived` makes over the dispatched tasks: discarded results route
   * every task untouched, received results are delivered, and a null result list does nothing.
   */
  function ResultsWalk(discard: bool, ts: seq<ServerTask>, results: Option<seq<Outcome>>, states: map<nat, TaskState>, outcomes: map<nat, Outcome>): Walk
  {
    if discard then Apply(Route, ts, |ts|, states, outcomes)
    else if results.Some? then Apply(Deliver(Padded(ts, results.value)), ts, |ts|, states, outcomes)
    else Walk(states, outcomes, [])
  }

  /**
   * The result list the delivery loop indexes, padded to the length of the dispatch with
   * a placeholder; `WalkIgnoresPadding` shows the placeholder is never read.
   */
  function Padded(ts: seq<ServerTask>, results: seq<Outcome>): (g: seq<Outcome>)
    ensures |ts| <= |g| && |results| <= |g|
    ensures forall k :: 0 <= k < |results| ==> g[k] == results[k]
  {
    if |ts| <= |results| then results else results + seq(|ts| - |results|, _ => Location(0))
  }

  /** The state the delivery loop finds the `k`-th task in when it reaches it. */
  function ReachedState(ts: seq<ServerTask>, given: seq<Outcome>, k: nat, states: map<nat, TaskState>, outcomes: map<nat, Outcome>): TaskState
    requires k < |ts| <= |given|
  {
    StateOf(Apply(Deliver(given), ts, k, states, outcomes).states, ts[k].id)
  }

  /**
   * Where the delivery loop of `resultsReceived`, from index `i` on, reads past the end of
   * the result list: the first task beyond its end that is not RESUBMIT when reached, at
   * which `results.get(i)` throws; none when every such task is to be resubmitted.
   */
  function FirstOutOfRange(ts: seq<ServerTask>, results: seq<Outcome>, states: map<nat, TaskState>, outcomes: map<nat, Outcome>, i: nat): (r: Option<nat>)
    requires i <= |ts|
    ensures r.Some? ==>
      i <= r.value < |ts| && |results| <= r.value
      && ReachedState(ts, Padded(ts, results), r.value, states, outcomes) != TaskResubmit
    ensures |ts| <= |results| ==> r.None?
    decreases |ts| - i
  {
    if i == |ts| then None
    else if |results| <= i && ReachedState(ts, Padded(ts, results), i, states, outcomes) != TaskResubmit then Some(i)
    else FirstOutOfRange(ts, results, states, outcomes, i + 1)
  }

  /** Where `resultsReceived` throws: only when results are delivered, at the first index out of range. */
  function ResultsOutOfRange(discard: bool, ts: seq<ServerTask>, results: Option<seq<Outcome>>, states: map<nat, TaskState>, outcomes: map<nat, Outcome>): Option<nat>
  {
    if !discard && results.Some? then FirstOutOfRange(ts, results.value, states, outcomes, 0) else None
  }

  /**
   * The submission status the end of `taskCompleted` leaves: ENDED once no client bundle and
   * no task remain, otherwise COMPLETE when nothing is pending, otherwise FAILED after an
   * error that was not followed by a requeue.
   */
  function ConcludedSubmission(before: SubmissionStatus, bundles: seq<ClientBundle>, tasks: seq<ServerTask>, thrown: bool, requeue: bool): SubmissionStatus
  {
    if |bundles| == 0 && |tasks| == 0 then Ended
    else if !AnyPending(bundles) then Complete
    else if thrown && !requeue then Failed
    else before
  }

  /** The job status the end of `taskCompleted` leaves: an executing job with nothing pending is done. */
  function ConcludedStatus(before: JobStatus, bundles: seq<ClientBundle>): JobStatus
  {
    if !AnyPending(bundles) && before == Executing then Done else before
  }

  /** The requeue handler runs when tasks are pending, the job is not cancelled, a requeue was asked for and a handler is set. */
  function RequeueEvents(bundles: seq<ClientBundle>, cancelled: bool, requeue: bool, onRequeue: Option<nat>): seq<JobEvent>
  {
    if AnyPending(bundles) && !cancelled && requeue && onRequeue.Some? then [Requeued] else []
  }

  /** A job whose last client bundle ends ends too; one still holding a bundle or a task never does. */
  lemma ConcludedEnded(before: SubmissionStatus, bundles: seq<ClientBundle>, tasks: seq<ServerTask>, thrown: bool, requeue: bool)
    ensures ConcludedSubmission(before, bundles, tasks, thrown, requeue) == Ended <==>
      (|bundles| == 0 && |tasks| == 0) || (before == Ended && AnyPending(bundles) && !(thrown && !requeue))
    ensures !AnyPending(bundles) && (|bundles| > 0 || |tasks| > 0) ==> ConcludedSubmission(before, bundles, tasks, thrown, requeue) == Complete
  {
  }

  /**
   * Results that give every client bundle back at least the tasks it has pending complete
   * the job, and an executing job is then done.
   */
  lemma ReceivingAllCompletes(bundles: seq<ClientBundle>, received: map<nat, set<nat>>, tasks: seq<ServerTask>, before: SubmissionStatus, thrown: bool, requeue: bool)
    requires forall i :: 0 <= i < |bundles| ==> bundles[i].pendingCount <= ReceivedCount(received, bundles[i].id)
    requires |bundles| > 0 || |tasks| > 0
    ensures ConcludedSubmission(before, Lowered(bundles, received), tasks, thrown, requeue) == Complete
    ensures ConcludedStatus(Executing, Lowered(bundles, received)) == Done
    ensures RequeueEvents(Lowered(bundles, received), false, requeue, Some(0)) == []
  {
    LoweredClearsPending(bundles, received);
  }

  // ---------------------------------------------------------------------------
  // The job

  class ServerJob {
    var tasks: seq<ServerTask>
    var clientBundles: seq<ClientBundle>
    var dispatchSet: map<nat, NodeBundle>
    /** The requeue handler, by identity. */
    var onRequeue: Option<nat>
    var broadcast: bool
    var header: JobHeader
    var status: JobStatus
    var submissionStatus: SubmissionStatus
    var cancelled: bool
    var jobExpired: bool
    /** Per-task state and received outcome, by task id. */
    var taskState: map<nat, TaskState>
    var taskOutcome: map<nat, Outcome>
    var sla: nat
    var metadata: nat
    /** Client bundles this job listens to for completion. */
    var listening: set<nat>
    var events: seq<JobEvent>

    constructor(header: JobHeader, broadcast: bool, sla: nat, metadata: nat)
      ensures this.header == header && this.broadcast == broadcast && this.sla == sla && this.metadata == metadata
      ensures tasks == [] && clientBundles == [] && dispatchSet == map[] && onRequeue == None
      ensures status == New && submissionStatus == Submitted && !cancelled && !jobExpired
      ensures taskState == map[] && taskOutcome == map[] && listening == {} && events == []
    {
      this.header := header;
      this.broadcast := broadcast;
      this.sla := sla;
      this.metadata := metadata;
      tasks := [];
      clientBundles := [];
      dispatchSet := map[];
      onRequeue := None;
      status := New;
      submissionStatus := Submitted;
      cancelled := false;
      jobExpired := false;
      taskState := map[];
      taskOutcome := map[];
      listening := {};
      events := [];
    }

    /** `getTaskCount`. */
    function TaskCount(): (n: nat)
      reads this
      ensures n == |tasks|
    {
      |tasks|
    }

    /** `getNbChannels`: the number of dispatches in progress. */
    function NbChannels(): (n: nat)
      reads this
      ensures n == |dispatchSet|
    {
      |dispatchSet|
    }

    /** `getNbBundles`. */
    function NbBundles(): (n: nat)
      reads this
      ensures n == |clientBundles|
    {
      |clientBundles|
    }

    /** `getNodeBundle(id)`: the dispatch with that id, or null. */
    function NodeBundleOf(id: nat): (b: Option<NodeBundle>)
      reads this
      ensures b.Some? <==> id in dispatchSet
      ensures b.Some? ==> b.value == dispatchSet[id]
    {
      if id in dispatchSet then Some(dispatchSet[id]) else None
    }

    /**
     * `merge`: puts the tasks before (`after` false) or after the existing ones, and asks
     * for a requeue exactly when the job had no tasks and the list is not empty.
     */
    method Merge(taskList: seq<ServerTask>, after: bool) returns (requeue: bool)
      modifies this`tasks
      ensures requeue <==> |old(tasks)| == 0 && |taskList| > 0
      ensures tasks == Merged(old(tasks), taskList, after)
      ensures unchanged(this`clientBundles, this`dispatchSet, this`status, this`submissionStatus, this`taskState, this`taskOutcome, this`events)
      ensures unchanged(this`cancelled, this`onRequeue, this`broadcast, this`jobExpired)
    {
      requeue := |tasks| == 0 && |taskList| > 0;
      if !after {
        tasks := taskList + tasks;
      } else {
        tasks := tasks + taskList;
      }
    }

    /**
     * `jobDispatched`: records the dispatch by id; the first dispatch of an idle job moves
     * it from NEW to EXECUTING and sets the submission status EXECUTING.
     */
    method JobDispatched(bundle: Option<NodeBundle>) returns (r: Result<()>)
      modifies this
      ensures bundle.None? ==> r.Fail? && r.failure.IllegalArgument? && unchanged(this)
      ensures bundle.Some? ==> (r.Ok?
        && dispatchSet == old(dispatchSet)[bundle.value.id := bundle.value]
        && events == old(events) + [Dispatched(bundle.value.id)]
        && (|old(dispatchSet)| == 0 ==>
              status == (if old(status) == New then Executing else old(status))
              && submissionStatus == SubmissionExecuting)
        && (|old(dispatchSet)| > 0 ==> status == old(status) && submissionStatus == old(submissionStatus)))
      ensures unchanged(this`tasks, this`clientBundles, this`taskState, this`taskOutcome, this`cancelled)
    {
      if bundle.None? {
        return Fail(IllegalArgument("bundle is null"));
      }
      var b := bundle.value;
      var empty := |dispatchSet| == 0;
      dispatchSet := dispatchSet[b.id := b];
      if empty {
        if status == New {
          status := Executing;
        }
        submissionStatus := SubmissionExecuting;
      }
      events := events + [Dispatched(b.id)];
      r := Ok(());
    }

    /** `jobReturned`: removes the dispatch from the dispatch set. */
    method JobReturned(bundle: Option<NodeBundle>) returns (r: Result<()>)
      modifies this
      ensures bundle.None? ==> r.Fail? && r.failure.IllegalArgument? && unchanged(this)
      ensures bundle.Some? ==> (r.Ok?
        && dispatchSet == old(dispatchSet) - {bundle.value.id}
        && events == old(events) + [Returned(bundle.value.id)])
      ensures unchanged(this`tasks, this`clientBundles, this`status, this`submissionStatus, this`taskState)
    {
      if bundle.None? {
        return Fail(IllegalArgument("bundle is null"));
      }
      dispatchSet := dispatchSet - {bundle.value.id};
      events := events + [Returned(bundle.value.id)];
      r := Ok(());
    }

    /** `hasPending`: whether some client bundle has pending tasks. */
    method HasPending() returns (b: bool)
      ensures b == AnyPending(clientBundles)
    {
      var i := 0;
      while i < |clientBundles|
        invariant 0 <= i <= |clientBundles|
        invariant forall k :: 0 <= k < i ==> clientBundles[k].pendingCount <= 0
      {
        if clientBundles[i].pendingCount > 0 {
          return true;
        }
        i := i + 1;
      }
      return false;
    }

    /** `setOnRequeue`: a broadcast job cannot be requeued, so it keeps no handler. */
    method SetOnRequeue(handler: Option<nat>)
      modifies this
      ensures onRequeue == (if broadcast then old(onRequeue) else handler)
      ensures unchanged(this`tasks, this`clientBundles, this`dispatchSet, this`events)
    {
      if broadcast {
        return;
      }
      onRequeue := handler;
    }

    /**
     * `addBundle`: a completed or ended job refuses the bundle; otherwise the bundle and
     * all its tasks are appended and the job listens for the bundle's completion.
     */
    method AddBundle(bundle: Option<ClientBundle>) returns (r: Result<bool>)
      modifies this
      ensures bundle.None? ==> r.Fail? && r.failure.IllegalArgument? && unchanged(this)
      ensures bundle.Some? && old(submissionStatus) in {Complete, Ended} ==>
        r.Fail? && r.failure.JobEnded? && unchanged(this)
      ensures bundle.Some? && old(submissionStatus) !in {Complete, Ended} ==>
        r == Ok(true)
        && clientBundles == old(clientBundles) + [bundle.value]
        && tasks == old(tasks) + bundle.value.taskList
        && listening == old(listening) + {bundle.value.id}
        && events == old(events) + [Updated(false)]
      ensures unchanged(this`dispatchSet, this`status, this`submissionStatus, this`taskState)
    {
      if bundle.None? {
        return Fail(IllegalArgument("bundle is null"));
      }
      if submissionStatus == Complete || submissionStatus == Ended {
        return Fail(JobEnded(if submissionStatus == Complete then "Job COMPLETE" else "Job ENDED"));
      }
      clientBundles := clientBundles + [bundle.value];
      tasks := tasks + bundle.value.taskList;
      listening := listening + {bundle.value.id};
      events := events + [Updated(false)];
      r := Ok(true);
    }

    /**
     * `copy(nbTasks)`: the dispatch takes the first k = min(nbTasks, task count) tasks,
     * which leave the job; the current task count is split between copy and job.
     */
    method Copy(nbTasks: nat) returns (c: JobCopy)
      modifies this
      ensures var k := TakeCount(nbTasks, |old(tasks)|);
        c.tasks == old(tasks)[..k] && tasks == old(tasks)[k..]
        && c.header == SplitHeader(old(header), k).copy
        && header == SplitHeader(old(header), k).rest
      ensures events == old(events) + [Updated(false)]
      ensures unchanged(this`clientBundles, this`dispatchSet, this`status, this`submissionStatus, this`taskState)
    {
      var taskCount := if nbTasks > |tasks| then |tasks| else nbTasks;
      var taken := tasks[..taskCount];
      var copyHeader: JobHeader;
      if header.currentTaskCount > taskCount {
        var newSize := header.currentTaskCount - taskCount;
        copyHeader := JobHeader(taskCount, taskCount);
        header := header.(currentTaskCount := newSize);
      } else {
        copyHeader := header;
        header := header.(currentTaskCount := 0);
      }
      c := JobCopy(copyHeader, taken);
      tasks := tasks[taskCount..];
      events := events + [Updated(false)];
    }

    /** Runs a pass over `ts`, updating the task states and outcomes, and returns the collected tasks. */
    method RunPass(p: Pass, ts: seq<ServerTask>) returns (kept: seq<ServerTask>)
      requires Fits(p, ts)
      modifies this`taskState, this`taskOutcome
      ensures var w := Apply(p, ts, |ts|, old(taskState), old(taskOutcome));
        taskState == w.states && taskOutcome == w.outcomes && kept == w.kept
      ensures unchanged(this`tasks, this`clientBundles, this`dispatchSet, this`status, this`submissionStatus, this`events)
      ensures unchanged(this`cancelled, this`onRequeue, this`broadcast, this`header, this`jobExpired)
      ensures !p.Deliver? ==> taskOutcome == old(taskOutcome)
    {
      kept := [];
      var i := 0;
      while i < |ts|
        invariant 0 <= i <= |ts|
        invariant var w := Apply(p, ts, i, old(taskState), old(taskOutcome));
          taskState == w.states && taskOutcome == w.outcomes && kept == w.kept
        invariant !p.Deliver? ==> taskOutcome == old(taskOutcome)
      {
        var t := ts[i];
        var e := Step(p, i, StateOf(taskState, t.id));
        taskState := taskState[t.id := e.state];
        if e.outcome.Some? {
          taskOutcome := taskOutcome[t.id := e.outcome.value];
        }
        if e.keep {
          kept := kept + [t];
        }
        i := i + 1;
      }
    }

    /**
     * `taskCompleted`: for a non-broadcast job, the returned tasks that must be resubmitted
     * become pending and the pending ones go back at the front of the job. With tasks
     * still pending, an error without requeue fails the job and a requeue runs the
     * handler; with none pending the job is complete. A job left with no bundle and no
     * task has ended.
     */
    method TaskCompleted(bundle: Option<NodeBundle>, throwable: Option<string>)
      modifies this`tasks, this`taskState, this`taskOutcome, this`status, this`submissionStatus, this`events
      ensures var w := ReturnedTasks(old(broadcast), bundle, old(taskState), old(taskOutcome));
        tasks == w.kept + old(tasks) && taskState == w.states && taskOutcome == old(taskOutcome)
      ensures var requeue := |old(tasks)| == 0 && |tasks| > |old(tasks)|;
        events == old(events) + RequeueEvents(clientBundles, cancelled, requeue, onRequeue)
        && status == ConcludedStatus(old(status), clientBundles)
        && submissionStatus == ConcludedSubmission(old(submissionStatus), clientBundles, tasks, throwable.Some?, requeue)
      ensures unchanged(this`clientBundles, this`dispatchSet, this`cancelled, this`onRequeue, this`broadcast)
      ensures unchanged(this`jobExpired, this`header, this`sla, this`metadata, this`listening)
    {
      var requeue := false;
      if !broadcast && bundle.Some? {
        var taskList := RunPass(Requeue, bundle.value.taskList);
        requeue := Merge(taskList, false);
      }
      Conclude(throwable, requeue);
    }

    /**
     * The end of `taskCompleted`: with tasks still pending, an error without requeue fails
     * the job and a requeue runs the handler unless the job was cancelled; with none
     * pending the job is complete and done; with no bundle and no task it has ended.
     */
    method Conclude(throwable: Option<string>, requeue: bool)
      modifies this`status, this`submissionStatus, this`events
      ensures events == old(events) + RequeueEvents(clientBundles, cancelled, requeue, onRequeue)
      ensures status == ConcludedStatus(old(status), clientBundles)
      ensures submissionStatus == ConcludedSubmission(old(submissionStatus), clientBundles, tasks, throwable.Some?, requeue)
      ensures unchanged(this`tasks, this`taskState, this`taskOutcome, this`clientBundles, this`dispatchSet)
      ensures unchanged(this`cancelled, this`onRequeue, this`broadcast)
      ensures unchanged(this`jobExpired, this`header, this`sla, this`metadata, this`listening)
    {
      var pending := HasPending();
      if pending {
        if throwable.Some? && !requeue {
          submissionStatus := Failed;
        }
        if !cancelled && requeue && onRequeue.Some? {
          events := events + [Requeued];
        }
      } else {
        submissionStatus := Complete;
        if status == Executing {
          status := Done;
        }
      }
      if |clientBundles| == 0 && |tasks| == 0 {
        submissionStatus := Ended;
      }
    }

    /**
     * `resultsReceived(bundle, results)`: an empty result list changes nothing. When the
     * job is expired or cancelled, or the dispatch expired while its node was offline,
     * every task is handed back to its client bundle without a result; otherwise tasks to
     * resubmit become pending and task i receives result i. The client bundles then count
     * the tasks they got back as no longer pending, and the completion of the dispatch is
     * processed.
     */
    method ResultsReceived(bundle: Option<NodeBundle>, results: Option<seq<Outcome>>) returns (r: Result<()>)
      requires bundle.Some?
      modifies this`tasks, this`taskState, this`taskOutcome, this`clientBundles, this`status, this`submissionStatus, this`events
      ensures results.Some? && |results.value| == 0 ==> r.Ok? && unchanged(this)
      ensures !(results.Some? && |results.value| == 0) ==>
        var oor := ResultsOutOfRange(DiscardGuard(old(jobExpired), old(cancelled), bundle), bundle.value.taskList, results, old(taskState), old(taskOutcome));
        oor.Some? ==>
        var w := Apply(Deliver(Padded(bundle.value.taskList, results.value)), bundle.value.taskList, oor.value, old(taskState), old(taskOutcome));
        r == Fail(IndexOutOfBounds(oor.value)) && taskState == w.states && taskOutcome == w.outcomes
        && tasks == old(tasks) && clientBundles == old(clientBundles) && events == old(events)
        && status == old(status) && submissionStatus == old(submissionStatus)
      ensures (!(results.Some? && |results.value| == 0)
        && ResultsOutOfRange(DiscardGuard(old(jobExpired), old(cancelled), bundle), bundle.value.taskList, results, old(taskState), old(taskOutcome)).None?) ==>
        var w := ResultsWalk(DiscardGuard(old(jobExpired), old(cancelled), bundle), bundle.value.taskList, results, old(taskState), old(taskOutcome));
        var back := ReturnedTasks(old(broadcast), bundle, w.states, w.outcomes);
        var requeue := |old(tasks)| == 0 && |back.kept| > 0;
        r.Ok? && taskOutcome == w.outcomes && taskState == back.states && tasks == back.kept + old(tasks)
        && clientBundles == Lowered(old(clientBundles), Group(w.kept))
        && events == old(events) + [ResultsDelivered(Group(w.kept), None)] + RequeueEvents(clientBundles, old(cancelled), requeue, old(onRequeue))
        && status == ConcludedStatus(old(status), clientBundles)
        && submissionStatus == ConcludedSubmission(old(submissionStatus), clientBundles, tasks, false, requeue)
      ensures unchanged(this`dispatchSet, this`cancelled, this`onRequeue, this`broadcast, this`jobExpired)
      ensures unchanged(this`header, this`sla, this`metadata, this`listening)
    {
      if results.Some? && |results.value| == 0 {
        return Ok(());
      }
      var bundleTasks := bundle.value.taskList;
      var discard := DiscardGuard(jobExpired, cancelled, bundle);
      var delivered, failedAt := WalkResults(discard, bundleTasks, results);
      if failedAt.Some? {
        return Fail(IndexOutOfBounds(failedAt.value));
      }
      HandBack(bundle, delivered, None);
      r := Ok(());
    }

    /**
     * `resultsReceived(bundle, throwable)`: tasks to resubmit become pending; every other
     * task of the dispatch receives the throwable and goes back to its client bundle, which
     * no longer counts it as pending. Then the completion of the dispatch is processed.
     */
    method ResultsFailed(bundle: Option<NodeBundle>, throwable: string) returns (r: Result<()>)
      modifies this`tasks, this`taskState, this`taskOutcome, this`clientBundles, this`status, this`submissionStatus, this`events
      ensures bundle.None? ==> r.Fail? && r.failure.IllegalArgument? && unchanged(this)
      ensures bundle.Some? ==>
        var ts := bundle.value.taskList;
        var w := Apply(Deliver(seq(|ts|, i => Thrown(throwable))), ts, |ts|, old(taskState), old(taskOutcome));
        var back := ReturnedTasks(old(broadcast), bundle, w.states, w.outcomes);
        var requeue := |old(tasks)| == 0 && |back.kept| > 0;
        r.Ok? && taskOutcome == w.outcomes && taskState == back.states && tasks == back.kept + old(tasks)
        && clientBundles == Lowered(old(clientBundles), Group(w.kept))
        && events == old(events) + [ResultsDelivered(Group(w.kept), Some(throwable))] + RequeueEvents(clientBundles, old(cancelled), requeue, old(onRequeue))
        && status == ConcludedStatus(old(status), clientBundles)
        && submissionStatus == ConcludedSubmission(old(submissionStatus), clientBundles, tasks, true, requeue)
      ensures unchanged(this`dispatchSet, this`cancelled, this`onRequeue, this`broadcast, this`jobExpired)
      ensures unchanged(this`header, this`sla, this`metadata, this`listening)
    {
      if bundle.None? {
        return Fail(IllegalArgument("bundle is null"));
      }
      var ts := bundle.value.taskList;
      var given := seq(|ts|, i => Thrown(throwable));
      var delivered := RunPass(Deliver(given), ts);
      HandBack(bundle, delivered, Some(throwable));
      r := Ok(());
    }

    /** The walk of `resultsReceived` over the dispatched tasks, as `ResultsWalk` describes it. */
    method WalkResults(discard: bool, ts: seq<ServerTask>, results: Option<seq<Outcome>>) returns (delivered: seq<ServerTask>, failedAt: Option<nat>)
      modifies this`taskState, this`taskOutcome
      ensures failedAt == ResultsOutOfRange(discard, ts, results, old(taskState), old(taskOutcome))
      ensures failedAt.None? ==> var w := ResultsWalk(discard, ts, results, old(taskState), old(taskOutcome));
        taskState == w.states && taskOutcome == w.outcomes && delivered == w.kept
      ensures failedAt.Some? ==> var w := Apply(Deliver(Padded(ts, results.value)), ts, failedAt.value, old(taskState), old(taskOutcome));
        taskState == w.states && taskOutcome == w.outcomes
    {
      delivered, failedAt := [], None;
      if discard {
        delivered := RunPass(Route, ts);
      } else if results.Some? {
        delivered, failedAt := DeliverResults(ts, results.value);
      }
    }

    /**
     * The delivery loop of `resultsReceived`: a RESUBMIT task becomes pending, and task `i`
     * otherwise receives result `i`; the loop stops where it would read past the end of the
     * result list, leaving the tasks before that point as it treated them.
     */
    method DeliverResults(ts: seq<ServerTask>, results: seq<Outcome>) returns (kept: seq<ServerTask>, failedAt: Option<nat>)
      modifies this`taskState, this`taskOutcome
      ensures failedAt == FirstOutOfRange(ts, results, old(taskState), old(taskOutcome), 0)
      ensures var w := Apply(Deliver(Padded(ts, results)), ts, if failedAt.Some? then failedAt.value else |ts|, old(taskState), old(taskOutcome));
        taskState == w.states && taskOutcome == w.outcomes && kept == w.kept
    {
      var given := Padded(ts, results);
      kept := [];
      var i := 0;
      while i < |ts|
        invariant 0 <= i <= |ts|
        invariant var w := Apply(Deliver(given), ts, i, old(taskState), old(taskOutcome));
          taskState == w.states && taskOutcome == w.outcomes && kept == w.kept
        invariant FirstOutOfRange(ts, results, old(taskState), old(taskOutcome), 0) == FirstOutOfRange(ts, results, old(taskState), old(taskOutcome), i)
      {
        var t := ts[i];
        if |results| <= i && StateOf(taskState, t.id) != TaskResubmit {
          return kept, Some(i);
        }
        var e := Step(Deliver(given), i, StateOf(taskState, t.id));
        taskState := taskState[t.id := e.state];
        if e.outcome.Some? {
          taskOutcome := taskOutcome[t.id := e.outcome.value];
        }
        if e.keep {
          kept := kept + [t];
        }
        i := i + 1;
      }
      failedAt := None;
    }

    /**
     * The end of both `resultsReceived` forms: the tasks handed back go to their client
     * bundles, which no longer count them as pending, and the completion of the dispatch
     * is processed.
     */
    method HandBack(bundle: Option<NodeBundle>, delivered: seq<ServerTask>, throwable: Option<string>)
      modifies this`tasks, this`taskState, this`taskOutcome, this`clientBundles, this`status, this`submissionStatus, this`events
      ensures var back := ReturnedTasks(old(broadcast), bundle, old(taskState), old(taskOutcome));
        var requeue := |old(tasks)| == 0 && |back.kept| > 0;
        taskOutcome == old(taskOutcome) && taskState == back.states && tasks == back.kept + old(tasks)
        && clientBundles == Lowered(old(clientBundles), Group(delivered))
        && events == old(events) + [ResultsDelivered(Group(delivered), throwable)] + RequeueEvents(clientBundles, old(cancelled), requeue, old(onRequeue))
        && status == ConcludedStatus(old(status), clientBundles)
        && submissionStatus == ConcludedSubmission(old(submissionStatus), clientBundles, tasks, throwable.Some?, requeue)
    {
      var received := Group(delivered);
      clientBundles := Lowered(clientBundles, received);
      events := events + [ResultsDelivered(received, throwable)];
      TaskCompleted(bundle, throwable);
    }

    /**
     * `cancel`: only the first cancellation takes effect. It cancels every dispatch, cancels
     * the unfinished tasks of a non-broadcast job, releases the job's node reservations,
     * then hands the cancelled tasks back to their client bundles, and ends the job.
     */
    method CancelJob() returns (result: bool)
      modifies this`cancelled, this`taskState, this`taskOutcome, this`events, this`submissionStatus, this`clientBundles
      ensures result <==> !old(cancelled)
      ensures old(cancelled) ==> unchanged(this)
      ensures !old(cancelled) ==> cancelled && submissionStatus == Ended
      ensures !old(cancelled) && !broadcast ==>
        var w := Apply(Cancel, tasks, |tasks|, old(taskState), old(taskOutcome));
        taskState == w.states
        && clientBundles == Lowered(old(clientBundles), Group(w.kept))
        && events == old(events) + [DispatchesCancelled(dispatchSet.Keys), ReservationsReleased, TasksCancelled(Group(w.kept))]
      ensures !old(cancelled) && broadcast ==>
        taskState == old(taskState) && clientBundles == old(clientBundles)
        && events == old(events) + [DispatchesCancelled(dispatchSet.Keys), ReservationsReleased]
      ensures taskOutcome == old(taskOutcome)
    {
      if cancelled {
        return false;
      }
      cancelled := true;
      if broadcast {
        events := events + [DispatchesCancelled(dispatchSet.Keys), ReservationsReleased];
      } else {
        var received := CancelTasks();
        clientBundles := Lowered(clientBundles, received);
        events := events + [DispatchesCancelled(dispatchSet.Keys), ReservationsReleased, TasksCancelled(received)];
      }
      submissionStatus := Ended;
      result := true;
    }

    /** `handleCancelledTasks`: the unfinished tasks are cancelled, and returned grouped by client bundle. */
    method CancelTasks() returns (received: map<nat, set<nat>>)
      modifies this`taskState, this`taskOutcome
      ensures var w := Apply(Cancel, tasks, |tasks|, old(taskState), old(taskOutcome));
        taskState == w.states && taskOutcome == old(taskOutcome) && received == Group(w.kept)
    {
      var cancelledTasks := RunPass(Cancel, tasks);
      received := Group(cancelledTasks);
    }

    /** `update`: replaces the SLA and the metadata that are given, and notifies only if one was. */
    method Update(newSla: Option<nat>, newMetadata: Option<nat>)
      modifies this
      ensures sla == (if newSla.Some? then newSla.value else old(sla))
      ensures metadata == (if newMetadata.Some? then newMetadata.value else old(metadata))
      ensures events == old(events) + (if newSla.Some? || newMetadata.Some? then [Updated(true)] else [])
      ensures unchanged(this`tasks, this`clientBundles, this`dispatchSet, this`submissionStatus)
    {
      var updated := false;
      if newSla.Some? {
        sla := newSla.value;
        updated := true;
      }
      if newMetadata.Some? {
        metadata := newMetadata.value;
        updated := true;
      }
      if updated {
        events := events + [Updated(true)];
      }
    }

    /** The completion listener's `taskCompleted`: only rejects a null bundle. */
    method ListenerTaskCompleted(bundle: Option<ClientBundle>) returns (r: Result<()>)
      ensures r.Fail? <==> bundle.None?
      ensures r.Fail? ==> r.failure.IllegalArgument?
    {
      if bundle.None? {
        return Fail(IllegalArgument("bundle is null"));
      }
      r := Ok(());
    }

    /**
     * The completion listener's `bundleEnded`: stops listening, removes the bundle and its
     * tasks from the job, and ends the job when no bundle and no task remain.
     */
    method BundleEnded(bundle: Option<ClientBundle>) returns (r: Result<()>)
      modifies this
      ensures bundle.None? ==> r.Fail? && r.failure.IllegalArgument? && unchanged(this)
      ensures bundle.Some? ==> (r.Ok?
        && listening == old(listening) - {bundle.value.id}
        && clientBundles == RemoveFirst(old(clientBundles), bundle.value)
        && tasks == RemoveAll(old(tasks), bundle.value.taskList)
        && submissionStatus == (if |clientBundles| == 0 && |tasks| == 0 then Ended else old(submissionStatus)))
      ensures unchanged(this`dispatchSet, this`status, this`taskState, this`events)
    {
      if bundle.None? {
        return Fail(IllegalArgument("bundle is null"));
      }
      var b := bundle.value;
      listening := listening - {b.id};
      clientBundles := RemoveFirst(clientBundles, b);
      tasks := RemoveAll(tasks, b.taskList);
      if |clientBundles| == 0 && |tasks| == 0 {
        submissionStatus := Ended;
      }
      r := Ok(());
    }
  }

  // ---------------------------------------------------------------------------
  // Properties

  /** Delivery: each distinct task either goes back to PENDING (to resubmit) or receives its own result. */
  lemma DeliverRoutesEachTask(ts: seq<ServerTask>, given: seq<Outcome>, states: map<nat, TaskState>, outcomes: map<nat, Outcome>, j: nat)
    requires |ts| <= |given| && DistinctIds(ts) && j < |ts|
    ensures var w := Apply(Deliver(given), ts, |ts|, states, outcomes);
      (StateOf(states, ts[j].id) == TaskResubmit ==> StateOf(w.states, ts[j].id) == TaskPending && ts[j] !in w.kept)
      && (StateOf(states, ts[j].id) != TaskResubmit ==>
            ts[j] in w.kept && ts[j].id in w.outcomes && w.outcomes[ts[j].id] == given[j]
            && ts[j].owner in Group(w.kept) && ts[j].id in Group(w.kept)[ts[j].owner])
  {
    ApplyAt(Deliver(given), ts, |ts|, states, outcomes, j);
    GroupMeaning(Apply(Deliver(given), ts, |ts|, states, outcomes).kept);
  }

  /**
   * A loop that runs to its end never reads past the result list: every task beyond its
   * end was RESUBMIT when reached, and which results fill the tail makes no difference.
   */
  lemma {:induction false} WalkIgnoresPadding(ts: seq<ServerTask>, results: seq<Outcome>, given: seq<Outcome>, n: nat, states: map<nat, TaskState>, outcomes: map<nat, Outcome>)
    requires n <= |ts| <= |given| && |results| <= |given|
    requires forall k :: 0 <= k < |results| ==> given[k] == results[k]
    requires forall k :: |results| <= k < n ==> ReachedState(ts, Padded(ts, results), k, states, outcomes) == TaskResubmit
    ensures Apply(Deliver(given), ts, n, states, outcomes) == Apply(Deliver(Padded(ts, results)), ts, n, states, outcomes)
  {
    if n > 0 {
      WalkIgnoresPadding(ts, results, given, n - 1, states, outcomes);
      var s := StateOf(Apply(Deliver(given), ts, n - 1, states, outcomes).states, ts[n - 1].id);
      if n - 1 < |results| {
        assert given[n - 1] == Padded(ts, results)[n - 1];
      } else {
        assert s == ReachedState(ts, Padded(ts, results), n - 1, states, outcomes) == TaskResubmit;
      }
      assert Step(Deliver(given), n - 1, s) == Step(Deliver(Padded(ts, results)), n - 1, s);
    }
  }

  /** Before the index where the loop throws, or everywhere when it does not, every task past the end of the results is RESUBMIT when reached. */
  lemma {:induction false} InRangeBefore(ts: seq<ServerTask>, results: seq<Outcome>, states: map<nat, TaskState>, outcomes: map<nat, Outcome>, i: nat)
    requires i <= |ts|
    ensures var r := FirstOutOfRange(ts, results, states, outcomes, i);
      forall k :: i <= k < |ts| && |results| <= k && (r.None? || k < r.value) ==>
        ReachedState(ts, Padded(ts, results), k, states, outcomes) == TaskResubmit
    decreases |ts| - i
  {
    if i < |ts| {
      InRangeBefore(ts, results, states, outcomes, i + 1);
    }
  }

  /** Cancellation: every unfinished task ends CANCELLED and goes back to its bundle; finished ones are untouched. */
  lemma CancelAffectsUnfinished(ts: seq<ServerTask>, states: map<nat, TaskState>, outcomes: map<nat, Outcome>, j: nat)
    requires DistinctIds(ts) && j < |ts|
    ensures var w := Apply(Cancel, ts, |ts|, states, outcomes);
      (IsDone(StateOf(states, ts[j].id)) ==> StateOf(w.states, ts[j].id) == StateOf(states, ts[j].id) && ts[j] !in w.kept)
      && (!IsDone(StateOf(states, ts[j].id)) ==> StateOf(w.states, ts[j].id) == TaskCancelled && ts[j] in w.kept)
  {
    ApplyAt(Cancel, ts, |ts|, states, outcomes, j);
  }

  /** Requeue: no returned task is left RESUBMIT, and exactly the pending ones go back to the job. */
  lemma RequeueCollectsPending(ts: seq<ServerTask>, states: map<nat, TaskState>, outcomes: map<nat, Outcome>, j: nat)
    requires DistinctIds(ts) && j < |ts|
    ensures var w := Apply(Requeue, ts, |ts|, states, outcomes);
      StateOf(w.states, ts[j].id) != TaskResubmit
      && (ts[j] in w.kept <==> StateOf(w.states, ts[j].id) == TaskPending)
      && (ts[j] in w.kept <==> StateOf(states, ts[j].id) in {TaskPending, TaskResubmit})
  {
    ApplyAt(Requeue, ts, |ts|, states, outcomes, j);
  }

  /** A copy and the job left behind partition the task list, and the current task count is conserved when split. */
  lemma CopyPartitions(ts: seq<ServerTask>, h: JobHeader, nbTasks: nat)
    ensures var k := TakeCount(nbTasks, |ts|);
      ts[..k] + ts[k..] == ts
      && |ts[..k]| == (if nbTasks < |ts| then nbTasks else |ts|)
      && (h.currentTaskCount > k ==>
            SplitHeader(h, k).copy.currentTaskCount + SplitHeader(h, k).rest.currentTaskCount == h.currentTaskCount)
  {
    var k := TakeCount(nbTasks, |ts|);
    assert ts[..k] + ts[k..] == ts;
  }

  /** After a bundle ends, none of its tasks remains in the job, and every other task does. */
  lemma BundleEndedRemovesItsTasks(tasks: seq<ServerTask>, b: ClientBundle, t: ServerTask)
    requires t in tasks
    ensures t in RemoveAll(tasks, b.taskList) <==> t !in b.taskList
  {
  }
}
