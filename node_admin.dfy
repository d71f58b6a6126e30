/**
 * The management interface of a node: shutting it down or restarting it now or once
 * its current job is done, the pending action this leaves, the task counter, thread
 * settings, configuration overrides and cancelling the job being executed.
 */
module NodeAdmin {
  import opened Text

  datatype Option<T> = None | Some(value: T)
  datatype Result<T> = Ok(value: T) | NullPointer

  datatype NodePendingAction = NoAction | RestartAction | ShutdownAction

  datatype DelegationModel = ParentFirst | UrlFirst

  /** The node state the management interface reports (a copy is handed out). */
  datatype JPPFNodeState = JPPFNodeState(
    pendingAction: NodePendingAction,
    nbTasksExecuted: int,
    threadPoolSize: int,
    threadPriority: int)

  const NodeUuidKey: string := "jppf.node.uuid"

  /** The console line announcing a shutdown or restart request. */
  function RequestMessage(interrupt: bool, restart: bool): (msg: string)
  {
    (if interrupt then "immediate" else "deferred") + " node " + (if restart then "restart" else "shutdown") + " requested"
  }

  /** A request without an interrupt flag interrupts. */
  function InterruptFlag(interruptIfRunning: Option<bool>): (b: bool)
    ensures b <==> interruptIfRunning != Some(false)
  {
    if interruptIfRunning.None? then true else interruptIfRunning.value
  }

  /** The overrides a node accepts: all of them but its uuid. */
  function AcceptedOverrides(overrides: map<string, string>): (r: map<string, string>)
    ensures NodeUuidKey !in r
    ensures forall k :: k in r <==> k in overrides && k != NodeUuidKey
    ensures forall k :: k in r ==> r[k] == overrides[k]
  {
    overrides - {NodeUuidKey}
  }

  /**
   * The restart part of `updateConfiguration` as written: both flags are unboxed, so a
   * missing restart flag, or a restart without an interrupt flag, fails with a null
   * pointer. The answer is what `shutdownOrRestart` is asked to do, if anything.
   */
  function RestartRequestAsWritten(restart: Option<bool>, interruptIfRunning: Option<bool>): (r: Result<Option<bool>>)
    ensures r.NullPointer? <==> restart.None? || (restart == Some(true) && interruptIfRunning.None?)
  {
    if restart.None? then NullPointer
    else if !restart.value then Ok(None)
    else if interruptIfRunning.None? then NullPointer
    else Ok(Some(interruptIfRunning.value))
  }

  /** The restart part of `updateConfiguration` with a missing interrupt flag read as `restart(null)` reads it. */
  function RestartRequest(restart: Option<bool>, interruptIfRunning: Option<bool>): (r: Result<Option<bool>>)
    ensures r.NullPointer? <==> restart.None?
    ensures restart == Some(false) ==> r == Ok(None)
    ensures restart == Some(true) ==> r == Ok(Some(InterruptFlag(interruptIfRunning)))
  {
    if restart.None? then NullPointer
    else if !restart.value then Ok(None)
    else Ok(Some(InterruptFlag(interruptIfRunning)))
  }

  /** A restart requested through a configuration update without an interrupt flag fails as written. */
  lemma NullInterruptFails()
    ensures RestartRequestAsWritten(Some(true), None).NullPointer?
    ensures RestartRequest(Some(true), None) == Ok(Some(true))
  {
  }

  /** Wherever the code as written does not fail, the corrected rule agrees with it. */
  lemma RestartRequestAgrees(restart: Option<bool>, interruptIfRunning: Option<bool>)
    ensures RestartRequestAsWritten(restart, interruptIfRunning).Ok? ==>
      RestartRequest(restart, interruptIfRunning) == RestartRequestAsWritten(restart, interruptIfRunning)
  {
  }

  /** The "cpuTime" runtime property: -1 when no execution information is available, else milliseconds from nanoseconds. */
  function CpuTimeProperty(cpuTimeNanos: Option<nat>): (s: string)
    ensures cpuTimeNanos.None? ==> s == "-1"
    ensures cpuTimeNanos.Some? ==> s == NatStr(cpuTimeNanos.value / 1000000) && s[0] != '-'
  {
    if cpuTimeNanos.None? then "-1" else IntStr(cpuTimeNanos.value / 1000000)
  }

  /** The node the management interface acts on, as far as it is seen from there. */
  class Node {
    var local: bool
    var executing: bool
    var shutdownRequested: bool
    var restart: bool
    var taskCount: int
    var currentJobId: Option<string>
    var jobCancelled: bool
    /** The `cancelAllTasks` calls received, with their requeue flag. */
    var cancellations: seq<Option<bool>>
    var threadPoolSize: int
    var threadsPriority: int
    var configChanges: nat

    constructor(local: bool)
      ensures this.local == local && !executing && !shutdownRequested && !restart && taskCount == 0
      ensures currentJobId == None && !jobCancelled && cancellations == [] && configChanges == 0
    {
      this.local := local;
      executing := false;
      shutdownRequested := false;
      restart := false;
      taskCount := 0;
      currentJobId := None;
      jobCancelled := false;
      cancellations := [];
      threadPoolSize := 1;
      threadsPriority := 5;
      configChanges := 0;
    }

    /** `requestShutdown`: the node is to shut down, or restart, once its current job is done. */
    method RequestShutdown(restart: bool)
      modifies this`shutdownRequested, this`restart
      ensures shutdownRequested && this.restart == restart
    {
      shutdownRequested := true;
      this.restart := restart;
    }

    /** `cancelShutdownRequest`: a deferred request is withdrawn; the answer says whether there was one. */
    method CancelShutdownRequest() returns (b: bool)
      modifies this`shutdownRequested
      ensures b == old(shutdownRequested) && !shutdownRequested
    {
      b := shutdownRequested;
      shutdownRequested := false;
    }
  }

  class JPPFNodeAdmin {
    const node: Node
    var nodeState: JPPFNodeState
    /** Whether the node process is shutting down (set once, for the whole process). */
    var shuttingDown: bool
    /** The shutdown threads started, with their restart flag, in order. */
    var shutdownThreads: seq<bool>
    /** The lines printed on the console, in order. */
    var printed: seq<string>
    /** The configuration properties, and the overrides saved, in order. */
    var configuration: map<string, string>
    var savedOverrides: seq<map<string, string>>
    var delegationModel: DelegationModel

    /** A shutdown thread is started at most once, and only once the process is shutting down. */
    predicate Valid()
      reads this
    {
      |shutdownThreads| <= 1 && (shutdownThreads != [] ==> shuttingDown)
    }

    constructor(node: Node)
      ensures this.node == node && Valid() && !shuttingDown && shutdownThreads == []
      ensures nodeState == JPPFNodeState(NoAction, 0, node.threadPoolSize, node.threadsPriority)
      ensures printed == [] && configuration == map[] && savedOverrides == []
    {
      this.node := node;
      nodeState := JPPFNodeState(NoAction, 0, node.threadPoolSize, node.threadsPriority);
      shuttingDown := false;
      shutdownThreads := [];
      printed := [];
      configuration := map[];
      savedOverrides := [];
      delegationModel := ParentFirst;
    }

    /** `state`: a copy of the node state. */
    function State(): (s: JPPFNodeState)
      reads this
      ensures s == nodeState
    {
      nodeState
    }

    /** `pendingAction`: none without a shutdown request, else a restart or a shutdown as requested. */
    function PendingAction(): (a: NodePendingAction)
      reads this, node
      ensures a == NoAction <==> !node.shutdownRequested
      ensures a == RestartAction <==> node.shutdownRequested && node.restart
      ensures a == ShutdownAction <==> node.shutdownRequested && !node.restart
    {
      if !node.shutdownRequested then NoAction
      else if node.restart then RestartAction else ShutdownAction
    }

    /**
     * `shutdownOrRestart`: nothing for a local node. Otherwise the request is printed; an
     * interrupting request, or any request while the node is not executing, starts the
     * shutdown thread unless the process is already shutting down; any other request is
     * deferred on the node and becomes the pending action.
     */
    method ShutdownOrRestart(interrupt: bool, restart: bool)
      requires Valid()
      modifies this, node`shutdownRequested, node`restart
      ensures Valid()
      ensures node.local ==> unchanged(this, node)
      ensures !node.local ==> printed == old(printed) + [RequestMessage(interrupt, restart)]
      ensures !node.local && (interrupt || !node.executing) ==>
        shuttingDown
        && shutdownThreads == old(shutdownThreads) + (if old(shuttingDown) then [] else [restart])
        && unchanged(node) && nodeState == old(nodeState)
      ensures !node.local && !interrupt && node.executing ==>
        shuttingDown == old(shuttingDown) && shutdownThreads == old(shutdownThreads)
        && node.shutdownRequested && node.restart == restart
        && nodeState == old(nodeState).(pendingAction := if restart then RestartAction else ShutdownAction)
      ensures unchanged(this`configuration, this`savedOverrides, this`delegationModel)
    {
      if node.local {
        return;
      }
      printed := printed + [RequestMessage(interrupt, restart)];
      if interrupt || !node.executing {
        if !shuttingDown {
          shuttingDown := true;
          shutdownThreads := shutdownThreads + [restart];
        }
      } else {
        node.RequestShutdown(restart);
        nodeState := nodeState.(pendingAction := PendingAction());
      }
    }

    /** `restart(interruptIfRunning)`: a missing flag means interrupt. */
    method Restart(interruptIfRunning: Option<bool>)
      requires Valid()
      modifies this, node`shutdownRequested, node`restart
      ensures Valid()
      ensures node.local ==> unchanged(this, node)
      ensures !node.local ==> printed == old(printed) + [RequestMessage(InterruptFlag(interruptIfRunning), true)]
      ensures !node.local && (InterruptFlag(interruptIfRunning) || !node.executing) ==>
        shuttingDown
        && shutdownThreads == old(shutdownThreads) + (if old(shuttingDown) then [] else [true])
        && unchanged(node) && nodeState == old(nodeState)
      ensures !node.local && !InterruptFlag(interruptIfRunning) && node.executing ==>
        shuttingDown == old(shuttingDown) && shutdownThreads == old(shutdownThreads)
        && node.shutdownRequested && node.restart == true
        && nodeState == old(nodeState).(pendingAction := RestartAction)
      ensures unchanged(this`configuration, this`savedOverrides, this`delegationModel)
    {
      var interrupt := if interruptIfRunning.None? then true else interruptIfRunning.value;
      ShutdownOrRestart(interrupt, true);
    }

    /** `shutdown(interruptIfRunning)`: a missing flag means interrupt. */
    method Shutdown(interruptIfRunning: Option<bool>)
      requires Valid()
      modifies this, node`shutdownRequested, node`restart
      ensures Valid()
      ensures node.local ==> unchanged(this, node)
      ensures !node.local ==> printed == old(printed) + [RequestMessage(InterruptFlag(interruptIfRunning), false)]
      ensures !node.local && (InterruptFlag(interruptIfRunning) || !node.executing) ==>
        shuttingDown
        && shutdownThreads == old(shutdownThreads) + (if old(shuttingDown) then [] else [false])
        && unchanged(node) && nodeState == old(nodeState)
      ensures !node.local && !InterruptFlag(interruptIfRunning) && node.executing ==>
        shuttingDown == old(shuttingDown) && shutdownThreads == old(shutdownThreads)
        && node.shutdownRequested && node.restart == false
        && nodeState == old(nodeState).(pendingAction := ShutdownAction)
      ensures unchanged(this`configuration, this`savedOverrides, this`delegationModel)
    {
      var interrupt := if interruptIfRunning.None? then true else interruptIfRunning.value;
      ShutdownOrRestart(interrupt, false);
    }

    /** `cancelPendingAction`: the pending action is cleared only when the node had a request to withdraw. */
    method CancelPendingAction() returns (b: bool)
      modifies this`nodeState, node`shutdownRequested
      ensures b == old(node.shutdownRequested) && !node.shutdownRequested
      ensures b ==> nodeState == old(nodeState).(pendingAction := NoAction)
      ensures !b ==> nodeState == old(nodeState)
    {
      b := node.CancelShutdownRequest();
      if b {
        nodeState := nodeState.(pendingAction := NoAction);
      }
    }

    /** `setTaskCounter`: the node's count and the reported count both become n. */
    method SetTaskCounter(n: int)
      modifies this`nodeState, node`taskCount
      ensures node.taskCount == n && nodeState == old(nodeState).(nbTasksExecuted := n)
    {
      node.taskCount := n;
      nodeState := nodeState.(nbTasksExecuted := n);
    }

    /** `resetTaskCounter`: both counts become 0. */
    method ResetTaskCounter()
      modifies this`nodeState, node`taskCount
      ensures node.taskCount == 0 && nodeState.nbTasksExecuted == 0
      ensures nodeState == old(nodeState).(nbTasksExecuted := 0)
    {
      SetTaskCounter(0);
    }

    /** `updateThreadPoolSize`: the executor and the reported state both take the new size. */
    method UpdateThreadPoolSize(size: int)
      modifies this`nodeState, node`threadPoolSize
      ensures node.threadPoolSize == size && nodeState == old(nodeState).(threadPoolSize := size)
    {
      node.threadPoolSize := size;
      nodeState := nodeState.(threadPoolSize := size);
    }

    /** `updateThreadsPriority`: the executor and the reported state both take the new priority. */
    method UpdateThreadsPriority(priority: int)
      modifies this`nodeState, node`threadsPriority
      ensures node.threadsPriority == priority && nodeState == old(nodeState).(threadPriority := priority)
    {
      node.threadsPriority := priority;
      nodeState := nodeState.(threadPriority := priority);
    }

    /**
     * `updateConfiguration`: null overrides are ignored. Otherwise every override but the
     * node uuid goes into the configuration and is saved, the node is told its
     * configuration changed, and a restart is requested when asked for.
     */
    method UpdateConfiguration(overrides: Option<map<string, string>>, restart: Option<bool>, interruptIfRunning: Option<bool>)
      returns (r: Result<()>)
      requires Valid()
      modifies this, node`shutdownRequested, node`restart, node`configChanges
      ensures Valid()
      ensures overrides.None? ==> r == Ok(()) && unchanged(this, node)
      ensures overrides.Some? ==>
        var accepted := AcceptedOverrides(overrides.value);
        configuration == old(configuration) + accepted
        && savedOverrides == old(savedOverrides) + [accepted]
        && node.configChanges == old(node.configChanges) + 1
        && (r.NullPointer? <==> restart.None?)
      ensures overrides.Some? && (restart != Some(true) || node.local) ==>
        printed == old(printed) && shuttingDown == old(shuttingDown) && shutdownThreads == old(shutdownThreads)
        && node.shutdownRequested == old(node.shutdownRequested) && node.restart == old(node.restart)
        && nodeState == old(nodeState)
      ensures overrides.Some? && restart == Some(true) && !node.local ==>
        printed == old(printed) + [RequestMessage(InterruptFlag(interruptIfRunning), true)]
      ensures overrides.Some? && restart == Some(true) && !node.local && (InterruptFlag(interruptIfRunning) || !node.executing) ==>
        shuttingDown
        && shutdownThreads == old(shutdownThreads) + (if old(shuttingDown) then [] else [true])
        && node.shutdownRequested == old(node.shutdownRequested) && node.restart == old(node.restart)
        && nodeState == old(nodeState)
      ensures overrides.Some? && restart == Some(true) && !node.local && !InterruptFlag(interruptIfRunning) && node.executing ==>
        shuttingDown == old(shuttingDown) && shutdownThreads == old(shutdownThreads)
        && node.shutdownRequested && node.restart
        && nodeState == old(nodeState).(pendingAction := RestartAction)
      ensures delegationModel == old(delegationModel)
    {
      if overrides.None? {
        return Ok(());
      }
      var accepted := overrides.value - {NodeUuidKey};
      configuration := configuration + accepted;
      savedOverrides := savedOverrides + [accepted];
      node.configChanges := node.configChanges + 1;
      var request := RestartRequest(restart, interruptIfRunning);
      if request.NullPointer? {
        return NullPointer;
      }
      r := Ok(());
      if request.value.Some? {
        ShutdownOrRestart(request.value.value, true);
      }
    }

    /** `cancelJob`: a null id, or the id of a job that is not the one executing, is ignored; otherwise the job's tasks are cancelled. */
    method CancelJob(jobId: Option<string>, requeue: Option<bool>)
      modifies node`jobCancelled, node`cancellations
      ensures jobId.None? || node.currentJobId != jobId ==> unchanged(node)
      ensures jobId.Some? && node.currentJobId == jobId ==>
        node.jobCancelled && node.cancellations == old(node.cancellations) + [requeue]
    {
      if jobId.None? {
        return;
      }
      if node.currentJobId == Some(jobId.value) {
        node.jobCancelled := true;
        node.cancellations := node.cancellations + [requeue];
      }
    }

    /** `setDelegationModel`: a null model is ignored. */
    method SetDelegationModel(model: Option<DelegationModel>)
      modifies this`delegationModel
      ensures model.None? ==> delegationModel == old(delegationModel)
      ensures model.Some? ==> delegationModel == model.value
    {
      if model.Some? {
        delegationModel := model.value;
      }
    }
  }
}
