/**
 * The configuration and status of a client connection to a driver: connecting, the
 * status listeners and their notification, the size of the buffer a job is sent in,
 * and the start index of the results that come back.
 */
module AbstractClientConnection {
  import opened Lists

  datatype Option<T> = None | Some(value: T)
  /** The outcome of connecting: a JPPFException saying which connection could not reconnect. */
  datatype Result<T> = Ok(value: T) | CouldNotReconnect(connectionName: string)

  /** A line written to the console while connecting. */
  datatype ConsoleLine = Attempting(clientName: string) | Reconnected(clientName: string)

  datatype ConnectionStatus = New | Disconnected | Connecting | Active | Executing | Failed

  /** A status notification: the listener notified and the status it was told about. */
  datatype Notification = Notification(listener: nat, status: ConnectionStatus)

  /** The header of a job: the uuid path, and the task count. */
  datatype ExecutionHeader = ExecutionHeader(uuidPath: seq<string>, taskCount: nat)

  /** The notifications one status change sends: one per listener, in list order. */
  function Notify(listeners: seq<nat>, s: ConnectionStatus): (ns: seq<Notification>)
    ensures |ns| == |listeners|
    ensures forall k :: 0 <= k < |ns| ==> ns[k] == Notification(listeners[k], s)
  {
    seq(|listeners|, k requires 0 <= k < |listeners| => Notification(listeners[k], s))
  }

  /** Every registered listener is told about the new status exactly once per registration. */
  lemma {:induction false} NotifyOncePerListener(listeners: seq<nat>, s: ConnectionStatus, l: nat)
    ensures multiset(Notify(listeners, s))[Notification(l, s)] == multiset(listeners)[l]
    ensures forall n :: n in Notify(listeners, s) ==> n.status == s && n.listener in listeners
  {
    var ns := Notify(listeners, s);
    if listeners != [] {
      var front := listeners[..|listeners| - 1];
      NotifyOncePerListener(front, s, l);
      assert listeners == front + [listeners[|listeners| - 1]];
      assert ns == Notify(front, s) + [Notification(listeners[|listeners| - 1], s)];
    }
  }

  /** The sum of the buffer lengths. */
  function Total(lengths: seq<nat>): nat
  {
    if lengths == [] then 0 else Total(lengths[..|lengths| - 1]) + lengths[|lengths| - 1]
  }

  /**
   * `receiveResults`: the tasks read (given here by their positions) and the start
   * index, which is the first one's position, or -1 when the list is empty.
   */
  method ReceiveResults(received: seq<int>) returns (positions: seq<int>, startIndex: int)
    ensures positions == received
    ensures received == [] ==> startIndex == -1
    ensures received != [] ==> startIndex == received[0]
  {
    positions := received;
    startIndex := if received == [] then -1 else received[0];
  }

  class AbstractJPPFClientConnection {
    var appUuid: string
    var host: string
    var port: int
    var classServerPort: int
    var priority: int
    var name: string
    var status: ConnectionStatus
    var listeners: seq<nat>
    /** Every notification sent so far, in order. */
    var notifications: seq<Notification>
    /** Whether the socket client exists, and the host and port it was given. */
    var hasSocketClient: bool
    var socketHost: string
    var socketPort: int
    /** The lines written to the console. */
    var printed: seq<ConsoleLine>

    /** The constructor configures the connection; its status starts as CONNECTING. */
    constructor(uuid: string, name: string, host: string, driverPort: int, classServerPort: int, priority: int)
      ensures appUuid == uuid && this.name == name && this.host == host && port == driverPort
      ensures this.classServerPort == classServerPort && this.priority == priority
      ensures status == Connecting && listeners == [] && notifications == [] && !hasSocketClient && printed == []
    {
      appUuid := uuid;
      this.name := name;
      this.host := host;
      port := driverPort;
      this.classServerPort := classServerPort;
      this.priority := priority;
      status := Connecting;
      listeners := [];
      notifications := [];
      hasSocketClient := false;
      socketHost := "";
      socketPort := -1;
      printed := [];
    }

    /** `configure`: the six settings are stored and nothing else changes. */
    method Configure(uuid: string, name: string, host: string, driverPort: int, classServerPort: int, priority: int)
      modifies this`appUuid, this`name, this`host, this`port, this`classServerPort, this`priority
      ensures appUuid == uuid && this.name == name && this.host == host && port == driverPort
      ensures this.classServerPort == classServerPort && this.priority == priority
    {
      appUuid := uuid;
      this.host := host;
      port := driverPort;
      this.priority := priority;
      this.classServerPort := classServerPort;
      this.name := name;
    }

    function GetPriority(): (p: int)
      reads this
      ensures p == priority
    {
      priority
    }

    function GetStatus(): (s: ConnectionStatus)
      reads this
      ensures s == status
    {
      status
    }

    /** `setStatus`: the status is stored, then every listener registered now is notified of it. */
    method SetStatus(s: ConnectionStatus)
      modifies this`status, this`notifications
      ensures status == s
      ensures notifications == old(notifications) + Notify(listeners, s)
    {
      status := s;
      FireStatusChanged();
    }

    /** `fireStatusChanged`: a snapshot of the listener list is notified, in order. */
    method FireStatusChanged()
      modifies this`notifications
      ensures notifications == old(notifications) + Notify(listeners, status)
    {
      var snapshot := listeners;
      var i := 0;
      while i < |snapshot|
        invariant 0 <= i <= |snapshot|
        invariant notifications == old(notifications) + Notify(snapshot[..i], status)
      {
        assert Notify(snapshot[..i + 1], status) == Notify(snapshot[..i], status) + [Notification(snapshot[i], status)];
        notifications := notifications + [Notification(snapshot[i], status)];
        i := i + 1;
      }
      assert snapshot[..i] == snapshot;
    }

    method AddClientConnectionStatusListener(listener: nat)
      modifies this`listeners
      ensures listeners == old(listeners) + [listener]
    {
      listeners := listeners + [listener];
    }

    method RemoveClientConnectionStatusListener(listener: nat)
      modifies this`listeners
      ensures listeners == RemoveFirst(old(listeners), listener)
    {
      listeners := RemoveFirst(listeners, listener);
    }

    /**
     * `initConnection`: the status goes to CONNECTING, the socket client is created when
     * there is none, and the attempt is announced; when the socket cannot be initialized
     * the status goes to FAILED and the exception is passed on, otherwise the reconnection
     * is announced and the status goes to ACTIVE.
     */
    method InitConnection(socketInitialized: bool) returns (r: Result<()>)
      modifies this`status, this`notifications, this`hasSocketClient, this`socketHost, this`socketPort, this`printed
      ensures r.Ok? <==> socketInitialized
      ensures r.Ok? ==> status == Active
      ensures !r.Ok? ==> status == Failed && r == CouldNotReconnect(name)
      ensures notifications == old(notifications) + Notify(listeners, Connecting) + Notify(listeners, status)
      ensures hasSocketClient
      ensures !old(hasSocketClient) ==> socketHost == host && socketPort == port
      ensures old(hasSocketClient) ==> socketHost == old(socketHost) && socketPort == old(socketPort)
      ensures printed == old(printed) + [Attempting(name)] + (if r.Ok? then [Reconnected(name)] else [])
    {
      SetStatus(Connecting);
      if !hasSocketClient {
        InitSocketClient();
      }
      printed := printed + [Attempting(name)];
      if !socketInitialized {
        SetStatus(Failed);
        return CouldNotReconnect(name);
      }
      printed := printed + [Reconnected(name)];
      SetStatus(Active);
      r := Ok(());
    }

    /** `initSocketClient`: a new socket client pointed at the driver's host and port. */
    method InitSocketClient()
      modifies this`hasSocketClient, this`socketHost, this`socketPort
      ensures hasSocketClient && socketHost == host && socketPort == port
    {
      hasSocketClient := true;
      socketHost := host;
      socketPort := port;
    }

    /**
     * `sendTasks`: the header names this client as the uuid path and counts the tasks;
     * the buffer is as long as the header, the data provider and the tasks with 4 bytes
     * each for a length, and they are copied into it one after the other.
     */
    method SendTasks(headerLength: nat, dataProviderLength: nat, taskLengths: seq<nat>)
      returns (header: ExecutionHeader, size: nat, pos: nat)
      ensures header == ExecutionHeader([appUuid], |taskLengths|)
      ensures size == Total([headerLength, dataProviderLength] + taskLengths) + 4 * (|taskLengths| + 2)
      ensures pos == Total([headerLength, dataProviderLength] + taskLengths)
    {
      header := ExecutionHeader([appUuid], |taskLengths|);
      var lengths := [headerLength, dataProviderLength] + taskLengths;
      size := 4 + headerLength;
      size := size + 4 + dataProviderLength;
      assert lengths[..0] == [];
      TotalStep(lengths, 0);
      TotalStep(lengths, 1);
      var i := 0;
      while i < |taskLengths|
        invariant 0 <= i <= |taskLengths|
        invariant size == Total(lengths[..i + 2]) + 4 * (i + 2)
      {
        TotalStep(lengths, i + 2);
        size := size + 4 + taskLengths[i];
        i := i + 1;
      }
      assert lengths[..i + 2] == lengths;
      pos := 0;
      var j := 0;
      while j < |lengths|
        invariant 0 <= j <= |lengths|
        invariant pos == Total(lengths[..j])
      {
        TotalStep(lengths, j);
        pos := pos + lengths[j];
        j := j + 1;
      }
      assert lengths[..j] == lengths;
    }
  }

  /** The text of a console line. */
  function LineText(line: ConsoleLine): string
  {
    match line
    case Attempting(n) => "[client: " + n + "] JPPFClient.init(): Attempting connection to the JPPF driver"
    case Reconnected(n) => "[client: " + n + "] JPPFClient.init(): Reconnected to the JPPF driver"
  }

  /** The message of the exception raised when the socket could not be initialized. */
  function ErrorMessage<T>(r: Result<T>): string
    requires r.CouldNotReconnect?
  {
    "[" + r.connectionName + "] Could not reconnect to the JPPF Driver"
  }

  /** Total of a prefix one element longer. */
  lemma TotalStep(s: seq<nat>, i: nat)
    requires i < |s|
    ensures Total(s[..i + 1]) == Total(s[..i]) + s[i]
  {
    assert s[..i + 1][..i] == s[..i];
  }
}
