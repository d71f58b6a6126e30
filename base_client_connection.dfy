/**
 * How a client connection talks to the driver: the header it sends with a job, which
 * tasks it sends (those without a result yet), what it does with tasks that cannot be
 * serialized, how it places the tasks it receives back, and the handshake and close
 * command headers.
 */
module BaseClientConnection {

  datatype Option<T> = None | Some(value: T)
  datatype Result<T> = Ok(value: T) | IndexOutOfBounds | EndOfStream

  /** A throwable by its class name; `isException` says whether the class is an `Exception` (and not an `Error` or another throwable). */
  datatype Throwable = Throwable(className: string, isException: bool)

  /** What a task holds as its throwable: an exception as it was thrown, or a `JPPFException` wrapping a throwable that is no exception. */
  datatype TaskException = Thrown(exception: Throwable) | JppfWrapped(cause: Throwable)

  /** The exception given to a task that cannot be serialized. */
  const NotSerializable: TaskException := Thrown(Throwable("java.io.NotSerializableException", true))

  /** A task of a job: its position, its resubmit limit, whether it can be serialized, and its throwable. */
  datatype ClientTask = ClientTask(position: int, maxResubmits: int, serializable: bool, throwable: Option<TaskException>)

  /** A job, as far as the connection reads it; `unexecutedCount` is what the job reports as its count of tasks without result. */
  datatype ClientJob = ClientJob(
    name: string, uuid: string, sla: nat, metadata: nat,
    dataProvider: Option<nat>, dataProviderSerializable: bool,
    tasks: seq<ClientTask>, results: set<int>, unexecutedCount: nat)

  /** A job header; fields the code does not set keep the defaults of a new header (0, empty, false, null). */
  datatype TaskBundle = TaskBundle(
    uuidPath: seq<string>, taskCount: int, name: string, uuid: string,
    sla: Option<nat>, metadata: Option<nat>, positions: seq<int>, maxResubmits: seq<int>,
    handshake: bool, connectionUuid: Option<string>, closeCommand: bool)

  /** What goes on the wire, item by item. */
  datatype WireItem = HeaderItem(header: TaskBundle) | DataProviderItem(provider: nat) | TaskItem(task: ClientTask) | SerializedNull | NullData

  /** The tasks to send (the array may end with nulls), with their positions and resubmit limits. */
  datatype Prepared = Prepared(tasks: seq<Option<ClientTask>>, positions: seq<int>, maxResubmits: seq<int>)

  /** The header read back from the driver: its task count, the positions parameter and the node exception parameter. */
  datatype ReceivedBundle = ReceivedBundle(taskCount: int, positions: Option<seq<int>>, nodeException: Option<Throwable>)

  /** The throwable a `TaskException` stands for: the exception itself, or the cause a `JPPFException` wraps. */
  function Original(e: TaskException): Throwable
  {
    if e.Thrown? then e.exception else e.cause
  }

  /** A throwable as a task receives it: an exception is kept as it is, anything else is wrapped in a `JPPFException`. */
  function AsException(t: Throwable): (e: TaskException)
    ensures e.Thrown? <==> t.isException
    ensures Original(e) == t
  {
    if t.isException then Thrown(t) else JppfWrapped(t)
  }

  /** The tasks without a result, in job order. */
  function Unexecuted(tasks: seq<ClientTask>, results: set<int>): (u: seq<ClientTask>)
    ensures |u| <= |tasks|
  {
    if tasks == [] then []
    else
      var t := tasks[|tasks| - 1];
      Unexecuted(tasks[..|tasks| - 1], results) + (if t.position in results then [] else [t])
  }

  /** A task is selected exactly when it belongs to the job and has no result. */
  lemma {:induction false} UnexecutedMembers(tasks: seq<ClientTask>, results: set<int>)
    ensures forall t :: t in Unexecuted(tasks, results) <==> t in tasks && t.position !in results
  {
    if tasks != [] {
      var front := tasks[..|tasks| - 1];
      UnexecutedMembers(front, results);
      assert tasks == front + [tasks[|tasks| - 1]];
    }
  }

  /** Selection keeps job order: the tasks of two lists, one after the other, are selected list by list. */
  lemma {:induction false} UnexecutedConcat(a: seq<ClientTask>, b: seq<ClientTask>, results: set<int>)
    ensures Unexecuted(a + b, results) == Unexecuted(a, results) + Unexecuted(b, results)
  {
    if b != [] {
      UnexecutedConcat(a, b[..|b| - 1], results);
      assert (a + b)[..|a + b| - 1] == a + b[..|b| - 1];
    } else {
      assert a + b == a;
    }
  }

  /** What the selection of a prefix of the tasks adds when one more task is looked at. */
  lemma UnexecutedStep(tasks: seq<ClientTask>, results: set<int>, n: nat)
    requires n < |tasks|
    ensures Unexecuted(tasks[..n + 1], results) ==
      Unexecuted(tasks[..n], results) + (if tasks[n].position in results then [] else [tasks[n]])
  {
    assert tasks[..n + 1][..n] == tasks[..n];
  }

  /** The selection from a prefix of the tasks starts the selection from all of them. */
  lemma UnexecutedPrefix(tasks: seq<ClientTask>, results: set<int>, n: nat)
    requires n <= |tasks|
    ensures |Unexecuted(tasks[..n], results)| <= |Unexecuted(tasks, results)|
    ensures Unexecuted(tasks, results)[..|Unexecuted(tasks[..n], results)|] == Unexecuted(tasks[..n], results)
  {
    UnexecutedConcat(tasks[..n], tasks[n..], results);
    assert tasks[..n] + tasks[n..] == tasks;
  }

  /** How a task goes on the wire: a null slot as a serialized null, a task that cannot be serialized as null data. */
  function TaskWire(t: Option<ClientTask>): WireItem
  {
    if t.None? then SerializedNull else if t.value.serializable then TaskItem(t.value) else NullData
  }

  /** The wire items of a list of task slots. */
  function TasksWire(ts: seq<Option<ClientTask>>): (w: seq<WireItem>)
    ensures |w| == |ts| && forall k :: 0 <= k < |ts| ==> w[k] == TaskWire(ts[k])
  {
    seq(|ts|, k requires 0 <= k < |ts| => TaskWire(ts[k]))
  }

  /** The tasks that could not be serialized, in order, each with the serialization exception as its throwable. */
  function Unserializable(ts: seq<Option<ClientTask>>): (u: seq<ClientTask>)
    ensures forall t :: t in u ==> t.throwable == Some(NotSerializable) && !t.serializable
  {
    if ts == [] then []
    else
      var t := ts[|ts| - 1];
      Unserializable(ts[..|ts| - 1]) + (if t.Some? && !t.value.serializable then [t.value.(throwable := Some(NotSerializable))] else [])
  }

  /** The header sent with a job. */
  function JobHeader(clientUuid: string, job: ClientJob, p: Prepared): (h: TaskBundle)
    ensures h.uuidPath == [clientUuid] && h.taskCount == job.unexecutedCount
    ensures h.name == job.name && h.uuid == job.uuid && h.sla == Some(job.sla) && h.metadata == Some(job.metadata)
    ensures h.positions == p.positions && h.maxResubmits == p.maxResubmits
    ensures !h.handshake && !h.closeCommand && h.connectionUuid.None?
  {
    TaskBundle([clientUuid], job.unexecutedCount, job.name, job.uuid, Some(job.sla), Some(job.metadata),
      p.positions, p.maxResubmits, false, None, false)
  }

  /** The header of the handshake job: its uuid is its name, which replaces the generated uuid. */
  function HandshakeHeader(clientUuid: string, connectionUuid: Option<string>): (h: TaskBundle)
    ensures h.uuidPath == [clientUuid] && h.handshake && h.name == "handshake job" && h.uuid == h.name
    ensures h.connectionUuid == connectionUuid && h.sla.None? && h.metadata.None? && !h.closeCommand
  {
    TaskBundle([clientUuid], 0, "handshake job", "handshake job", None, None, [], [], true, connectionUuid, false)
  }

  /** The header of the close command. */
  function CloseHeader(clientUuid: string, connectionUuid: Option<string>): (h: TaskBundle)
    ensures h.uuidPath == [clientUuid] && h.closeCommand && h.name == "close command job" && h.uuid == h.name
    ensures h.connectionUuid == connectionUuid && h.sla.None? && h.metadata.None? && !h.handshake
  {
    TaskBundle([clientUuid], 0, "close command job", "close command job", None, None, [], [], false, connectionUuid, true)
  }

  /** A received task takes the position the header lists for its index, when the list has one. */
  function Placed(t: ClientTask, i: nat, positions: Option<seq<int>>): (p: ClientTask)
    ensures positions.Some? && i < |positions.value| ==> p == t.(position := positions.value[i])
    ensures positions.None? || i >= |positions.value| ==> p == t
  {
    if positions.Some? && i < |positions.value| then t.(position := positions.value[i]) else t
  }

  /** The tasks kept from the first n slots read: the non-null ones, placed, in order. */
  function ReceivedTasks(stream: seq<Option<ClientTask>>, n: nat, positions: Option<seq<int>>): seq<ClientTask>
    requires n <= |stream|
  {
    if n == 0 then []
    else
      ReceivedTasks(stream, n - 1, positions)
      + (if stream[n - 1].Some? then [Placed(stream[n - 1].value, n - 1, positions)] else [])
  }

  /** Every non-null slot read yields its placed task, and every task kept comes from such a slot. */
  lemma {:induction false} ReceivedMeaning(stream: seq<Option<ClientTask>>, n: nat, positions: Option<seq<int>>)
    requires n <= |stream|
    ensures forall i :: 0 <= i < n && stream[i].Some? ==> Placed(stream[i].value, i, positions) in ReceivedTasks(stream, n, positions)
    ensures forall t :: t in ReceivedTasks(stream, n, positions) ==>
      exists i :: 0 <= i < n && stream[i].Some? && t == Placed(stream[i].value, i, positions)
  {
    if n > 0 {
      ReceivedMeaning(stream, n - 1, positions);
    }
  }

  /**
   * The arrays `prepareTasksToSend` fills: as long as the job's count of unexecuted
   * tasks, holding in job order the tasks without a result, their positions and their
   * resubmit limits, then nulls and zeros; a count too small for those tasks overruns
   * the arrays.
   */
  function Prepare(job: ClientJob): (r: Result<Prepared>)
    ensures var u := Unexecuted(job.tasks, job.results);
      (r.Ok? <==> |u| <= job.unexecutedCount) && (r.Ok? || r.IndexOutOfBounds?)
      && (r.Ok? ==>
        |r.value.tasks| == |r.value.positions| == |r.value.maxResubmits| == job.unexecutedCount
        && (forall k :: 0 <= k < |u| ==>
              r.value.tasks[k] == Some(u[k]) && r.value.positions[k] == u[k].position && r.value.maxResubmits[k] == u[k].maxResubmits)
        && (forall k :: |u| <= k < job.unexecutedCount ==>
              r.value.tasks[k].None? && r.value.positions[k] == 0 && r.value.maxResubmits[k] == 0))
  {
    var u := Unexecuted(job.tasks, job.results);
    var count := job.unexecutedCount;
    if |u| > count then IndexOutOfBounds
    else
      Ok(Prepared(
        seq(count, k requires 0 <= k < count => if k < |u| then Some(u[k]) else None),
        seq(count, k requires 0 <= k < count => if k < |u| then u[k].position else 0),
        seq(count, k requires 0 <= k < count => if k < |u| then u[k].maxResubmits else 0)))
  }

  /** The three arrays hold the selected tasks, their positions and limits, then nulls and zeros. */
  predicate SlotsHold(ts: seq<Option<ClientTask>>, ps: seq<int>, ms: seq<int>, selected: seq<ClientTask>)
  {
    |ts| == |ps| == |ms| && |selected| <= |ts|
    && (forall k :: 0 <= k < |selected| ==> ts[k] == Some(selected[k]) && ps[k] == selected[k].position && ms[k] == selected[k].maxResubmits)
    && (forall k :: |selected| <= k < |ts| ==> ts[k].None? && ps[k] == 0 && ms[k] == 0)
  }

  /** Filling the next slot of the arrays with one more task keeps them holding the selection. */
  lemma SlotsStep(ts: seq<Option<ClientTask>>, ps: seq<int>, ms: seq<int>, selected: seq<ClientTask>, task: ClientTask)
    requires SlotsHold(ts, ps, ms, selected) && |selected| < |ts|
    ensures SlotsHold(ts[|selected| := Some(task)], ps[|selected| := task.position], ms[|selected| := task.maxResubmits], selected + [task])
  {
  }

  /** Arrays filled as `Prepare` describes are what it returns. */
  lemma PreparedArrays(job: ClientJob, p: Prepared)
    requires |p.tasks| == job.unexecutedCount && SlotsHold(p.tasks, p.positions, p.maxResubmits, Unexecuted(job.tasks, job.results))
    ensures Prepare(job) == Ok(p)
  {
    var q := Prepare(job).value;
    assert p.tasks == q.tasks;
    assert p.positions == q.positions;
    assert p.maxResubmits == q.maxResubmits;
  }

  /** The client's connection to the driver's job server. */
  class BaseJPPFClientConnection {
    const clientUuid: string
    const connectionUuid: Option<string>
    var hasTaskServerConnection: bool
    var hasSocket: bool
    /** Everything written to the socket, and the number of flushes. */
    var sent: seq<WireItem>
    var flushes: nat

    constructor(clientUuid: string, connectionUuid: Option<string>, hasTaskServerConnection: bool, hasSocket: bool)
      ensures this.clientUuid == clientUuid && this.connectionUuid == connectionUuid
      ensures this.hasTaskServerConnection == hasTaskServerConnection && this.hasSocket == hasSocket
      ensures sent == [] && flushes == 0
    {
      this.clientUuid := clientUuid;
      this.connectionUuid := connectionUuid;
      this.hasTaskServerConnection := hasTaskServerConnection;
      this.hasSocket := hasSocket;
      sent := [];
      flushes := 0;
    }

    /**
     * `prepareTasksToSend`: arrays as long as the job's count of unexecuted tasks are
     * filled, in job order, with the tasks without a result, their positions and their
     * resubmit limits; a count too small for them overruns the arrays.
     */
    method PrepareTasksToSend(job: ClientJob) returns (r: Result<Prepared>)
      ensures r == Prepare(job)
    {
      var count := job.unexecutedCount;
      var positions := new int[count](_ => 0);
      var maxResubmits := new int[count](_ => 0);
      var tasks := new Option<ClientTask>[count](_ => None);
      ghost var selected: seq<ClientTask> := [];
      assert SlotsHold(tasks[..], positions[..], maxResubmits[..], selected);
      var i := 0;
      var n := 0;
      while n < |job.tasks|
        invariant 0 <= n <= |job.tasks|
        invariant selected == Unexecuted(job.tasks[..n], job.results)
        invariant i == |selected| <= count
        invariant SlotsHold(tasks[..], positions[..], maxResubmits[..], selected)
      {
        UnexecutedStep(job.tasks, job.results, n);
        var task := job.tasks[n];
        if task.position !in job.results {
          if i >= count {
            UnexecutedPrefix(job.tasks, job.results, n + 1);
            return IndexOutOfBounds;
          }
          FillSlot(tasks, positions, maxResubmits, i, selected, task);
          i := i + 1;
          selected := selected + [task];
        }
        n := n + 1;
      }
      assert job.tasks[..n] == job.tasks;
      r := Ok(Prepared(tasks[..], positions[..], maxResubmits[..]));
      PreparedArrays(job, r.value);
    }

    /** One slot of the arrays is filled with the next task to send. */
    method FillSlot(tasks: array<Option<ClientTask>>, positions: array<int>, maxResubmits: array<int>, i: nat, ghost selected: seq<ClientTask>, task: ClientTask)
      requires positions != maxResubmits
      requires SlotsHold(tasks[..], positions[..], maxResubmits[..], selected) && i == |selected| < tasks.Length
      modifies tasks, positions, maxResubmits
      ensures SlotsHold(tasks[..], positions[..], maxResubmits[..], selected + [task])
    {
      SlotsStep(tasks[..], positions[..], maxResubmits[..], selected, task);
      tasks[i] := Some(task);
      positions[i] := task.position;
      maxResubmits[i] := task.maxResubmits;
    }

    /**
     * `sendTasks`: the header, then the data provider (a serialized null when it cannot
     * be serialized), then each task slot; a task that cannot be serialized is sent as
     * null data, gets the exception as its throwable, and is returned.
     */
    method SendTasks(job: ClientJob) returns (r: Result<seq<ClientTask>>)
      modifies this`sent, this`flushes
      ensures r.Ok? <==> Prepare(job).Ok?
      ensures !r.Ok? ==> r.IndexOutOfBounds? && sent == old(sent) && flushes == old(flushes)
      ensures r.Ok? ==>
        var p := Prepare(job).value;
        sent == old(sent) + [HeaderItem(JobHeader(clientUuid, job, p)), ProviderWire(job)] + TasksWire(p.tasks)
        && r.value == Unserializable(p.tasks)
        && flushes == old(flushes) + 1
    {
      var prepared := PrepareTasksToSend(job);
      if !prepared.Ok? {
        return IndexOutOfBounds;
      }
      var p := prepared.value;
      var header := JobHeader(clientUuid, job, p);
      sent := sent + [HeaderItem(header), ProviderWire(job)];
      var failed := SendSlots(p.tasks);
      flushes := flushes + 1;
      r := Ok(failed);
    }

    /** The loop over the task slots: each goes on the wire, and the ones that cannot be serialized are collected. */
    method SendSlots(ts: seq<Option<ClientTask>>) returns (failed: seq<ClientTask>)
      modifies this`sent
      ensures sent == old(sent) + TasksWire(ts)
      ensures failed == Unserializable(ts)
    {
      failed := [];
      var i := 0;
      while i < |ts|
        invariant 0 <= i <= |ts|
        invariant sent == old(sent) + TasksWire(ts[..i])
        invariant failed == Unserializable(ts[..i])
      {
        assert ts[..i + 1][..i] == ts[..i];
        assert TasksWire(ts[..i + 1]) == TasksWire(ts[..i]) + [TaskWire(ts[i])];
        var t := ts[i];
        if t.Some? && !t.value.serializable {
          sent := sent + [NullData];
          failed := failed + [t.value.(throwable := Some(NotSerializable))];
        } else {
          sent := sent + [TaskWire(t)];
        }
        i := i + 1;
      }
      assert ts[..i] == ts;
    }

    /** `sendHandshakeJob`: the handshake header and a null data provider, flushed; the driver's answer is then read. */
    method SendHandshakeJob(answer: ReceivedBundle, stream: seq<Option<ClientTask>>) returns (r: Result<ReceivedBundle>)
      modifies this`sent, this`flushes
      ensures sent == old(sent) + [HeaderItem(HandshakeHeader(clientUuid, connectionUuid)), SerializedNull]
      ensures flushes == old(flushes) + 1
      ensures r.Ok? <==> answer.taskCount <= |stream|
      ensures r.Ok? ==> r.value == answer
    {
      sent := sent + [HeaderItem(HandshakeHeader(clientUuid, connectionUuid)), SerializedNull];
      flushes := flushes + 1;
      var received := ReceiveBundleAndResults(answer, stream);
      if !received.Ok? {
        return EndOfStream;
      }
      r := Ok(answer);
    }

    /** `sendCloseConnectionCommand`: nothing without a job-server connection, and nothing written without a socket. */
    method SendCloseConnectionCommand()
      modifies this`sent, this`flushes
      ensures !hasTaskServerConnection || !hasSocket ==> sent == old(sent) && flushes == old(flushes)
      ensures hasTaskServerConnection && hasSocket ==>
        sent == old(sent) + [HeaderItem(CloseHeader(clientUuid, connectionUuid)), SerializedNull]
        && flushes == old(flushes) + 1
    {
      if !hasTaskServerConnection {
        return;
      }
      var header := CloseHeader(clientUuid, connectionUuid);
      if hasSocket {
        sent := sent + [HeaderItem(header), SerializedNull];
        flushes := flushes + 1;
      }
    }
  }

  /** How the data provider goes on the wire: itself, or a serialized null when it is null or cannot be serialized. */
  function ProviderWire(job: ClientJob): WireItem
  {
    if job.dataProvider.Some? && job.dataProviderSerializable then DataProviderItem(job.dataProvider.value) else SerializedNull
  }

  /**
   * `receiveBundleAndResults`: as many task slots as the header counts are read; each
   * non-null task takes the position listed for its index, when there is one, and is
   * kept. A node exception in the header becomes the throwable of every kept task,
   * wrapped in a `JPPFException` when it is not itself an exception.
   */
  method ReceiveBundleAndResults(bundle: ReceivedBundle, stream: seq<Option<ClientTask>>) returns (r: Result<seq<ClientTask>>)
    ensures bundle.taskCount > |stream| <==> r.EndOfStream?
    ensures r.Ok? || r.EndOfStream?
    ensures r.Ok? ==>
      var kept := ReceivedTasks(stream, if bundle.taskCount < 0 then 0 else bundle.taskCount, bundle.positions);
      |r.value| == |kept|
      && (bundle.nodeException.None? ==> r.value == kept)
      && (bundle.nodeException.Some? ==>
            forall k :: 0 <= k < |kept| ==> r.value[k] == kept[k].(throwable := Some(AsException(bundle.nodeException.value))))
  {
    var taskList: seq<ClientTask> := [];
    var i := 0;
    while i < bundle.taskCount
      invariant 0 <= i <= |stream| && (bundle.taskCount >= 0 ==> i <= bundle.taskCount) && (bundle.taskCount < 0 ==> i == 0)
      invariant taskList == ReceivedTasks(stream, i, bundle.positions)
    {
      if i >= |stream| {
        return EndOfStream;
      }
      var task := stream[i];
      if task.Some? {
        var placed := task.value;
        if bundle.positions.Some? && i < |bundle.positions.value| {
          placed := placed.(position := bundle.positions.value[i]);
        }
        taskList := taskList + [placed];
      }
      i := i + 1;
    }
    assert taskList == ReceivedTasks(stream, if bundle.taskCount < 0 then 0 else bundle.taskCount, bundle.positions);
    if bundle.nodeException.Some? {
      var e := AsException(bundle.nodeException.value);
      var k := 0;
      ghost var kept := taskList;
      while k < |taskList|
        invariant 0 <= k <= |taskList| == |kept|
        invariant forall j :: 0 <= j < k ==> taskList[j] == kept[j].(throwable := Some(e))
        invariant forall j :: k <= j < |taskList| ==> taskList[j] == kept[j]
      {
        taskList := taskList[k := taskList[k].(throwable := Some(e))];
        k := k + 1;
      }
    }
    r := Ok(taskList);
  }
}
