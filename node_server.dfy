/**
 * The driver's registry of node connections: adding and removing a connection, looking
 * one up, activating it, how an execution-status change moves a node in and out of the
 * idle set, and closing the server.
 */
module NodeServer {

  datatype Option<T> = None | Some(value: T)
  datatype Result<T> = Ok(value: T) | IllegalArgument(message: string)

  datatype ExecutorStatus = Active | Executing | Failed | Disabled

  datatype NodeState = Idle | SendingBundle | WaitingResults | SendInitialBundle | WaitInitialBundle

  /** A node connection: its uuid, whether it has a channel, its execution status (possibly null) and its active flag. */
  datatype NodeContext = NodeContext(uuid: string, hasChannel: bool, status: Option<ExecutorStatus>, active: bool)

  /** A node channel is idle exactly when its state is IDLE. */
  function IsIdle(state: NodeState): (b: bool)
    ensures b <==> state == Idle
  {
    state == Idle
  }

  class NodeNioServer {
    /** All connections by uuid. */
    var connections: map<string, NodeContext>
    /** The uuids of the idle channels held by the task queue checker. */
    var idle: set<string>
    /** The uuids of the contexts this server listens to. */
    var listening: set<string>
    /** The uuids whose broadcast jobs were cancelled, in order. */
    var cancelledBroadcasts: seq<string>
    /** The status changes reported to the queue's working-connection count, in order. */
    var workingUpdates: seq<(ExecutorStatus, ExecutorStatus)>
    var stopped: bool
    /** The uuids of the connections closed by `close`. */
    var closed: set<string>

    /** Each connection is registered under its own uuid. */
    predicate Valid()
      reads this
    {
      forall u :: u in connections ==> connections[u].uuid == u
    }

    constructor()
      ensures Valid() && connections == map[] && idle == {} && listening == {}
      ensures cancelledBroadcasts == [] && workingUpdates == [] && !stopped && closed == {}
    {
      connections := map[];
      idle := {};
      listening := {};
      cancelledBroadcasts := [];
      workingUpdates := [];
      stopped := false;
      closed := {};
    }

    /** `getConnection`: the context registered under the uuid, or null. */
    function GetConnection(uuid: string): (c: Option<NodeContext>)
      reads this
      ensures c.Some? <==> uuid in connections
      ensures c.Some? ==> c.value == connections[uuid]
      ensures Valid() && c.Some? ==> c.value.uuid == uuid
    {
      if uuid in connections then Some(connections[uuid]) else None
    }

    /** `getNbNodes`. */
    function NbNodes(): (n: nat)
      reads this
      ensures n == |connections|
    {
      |connections|
    }

    /**
     * `updateConnectionStatus`: null statuses are rejected; a null context or an unchanged
     * status does nothing. ACTIVE makes the node idle; any other status takes it out of
     * the idle set, and FAILED or DISABLED also cancel its broadcast jobs.
     */
    method UpdateConnectionStatus(ctx: Option<NodeContext>, oldStatus: Option<ExecutorStatus>, newStatus: Option<ExecutorStatus>)
      returns (r: Result<()>)
      modifies this
      ensures r.IllegalArgument? <==> oldStatus.None? || newStatus.None?
      ensures r.IllegalArgument? || ctx.None? || oldStatus == newStatus ==> unchanged(this)
      ensures r.Ok? && ctx.Some? && oldStatus != newStatus ==>
        var u := ctx.value.uuid;
        (newStatus.value == Active ==> idle == old(idle) + {u} && cancelledBroadcasts == old(cancelledBroadcasts))
        && (newStatus.value != Active ==> idle == old(idle) - {u})
        && (newStatus.value in {Failed, Disabled} ==> cancelledBroadcasts == old(cancelledBroadcasts) + [u])
        && (newStatus.value == Executing ==> cancelledBroadcasts == old(cancelledBroadcasts))
        && workingUpdates == old(workingUpdates) + [(oldStatus.value, newStatus.value)]
      ensures unchanged(this`connections, this`listening, this`stopped, this`closed)
    {
      if oldStatus.None? {
        return IllegalArgument("oldStatus is null");
      }
      if newStatus.None? {
        return IllegalArgument("newStatus is null");
      }
      r := Ok(());
      if ctx.None? || oldStatus == newStatus {
        return;
      }
      var u := ctx.value.uuid;
      if newStatus.value == Active {
        idle := idle + {u};
      } else {
        idle := idle - {u};
        if newStatus.value == Failed || newStatus.value == Disabled {
          cancelledBroadcasts := cancelledBroadcasts + [u];
        }
      }
      workingUpdates := workingUpdates + [(oldStatus.value, newStatus.value)];
    }

    /**
     * `addConnection`: a null context or one without a channel is rejected; otherwise it
     * is registered under its uuid, listened to, and its status is reported as a change
     * from DISABLED (which does nothing for a node that is itself DISABLED).
     */
    method AddConnection(ctx: Option<NodeContext>) returns (r: Result<()>)
      requires Valid()
      modifies this
      ensures Valid()
      ensures ctx.None? || !ctx.value.hasChannel ==> r.IllegalArgument? && unchanged(this)
      ensures ctx.Some? && ctx.value.hasChannel ==>
        connections == old(connections)[ctx.value.uuid := ctx.value]
        && listening == old(listening) + {ctx.value.uuid}
        && (r.Ok? <==> ctx.value.status.Some?)
        && (ctx.value.status == Some(Active) ==> idle == old(idle) + {ctx.value.uuid})
        && (ctx.value.status == Some(Disabled) ==> idle == old(idle) && workingUpdates == old(workingUpdates))
        && (ctx.value.status.Some? && ctx.value.status.value in {Executing, Failed} ==> idle == old(idle) - {ctx.value.uuid})
        && (ctx.value.status.None? ==> idle == old(idle) && workingUpdates == old(workingUpdates))
      ensures ctx.Some? && ctx.value.hasChannel && ctx.value.status.Some? && ctx.value.status.value != Disabled ==>
        workingUpdates == old(workingUpdates) + [(Disabled, ctx.value.status.value)]
      ensures ctx.Some? && ctx.value.hasChannel && ctx.value.status == Some(Failed) ==>
        cancelledBroadcasts == old(cancelledBroadcasts) + [ctx.value.uuid]
      ensures ctx.None? || ctx.value.status != Some(Failed) ==> cancelledBroadcasts == old(cancelledBroadcasts)
      ensures unchanged(this`stopped, this`closed)
    {
      if ctx.None? {
        return IllegalArgument("wrapper is null");
      }
      if !ctx.value.hasChannel {
        return IllegalArgument("wrapper.getChannel() is null");
      }
      connections := connections[ctx.value.uuid := ctx.value];
      listening := listening + {ctx.value.uuid};
      r := UpdateConnectionStatus(ctx, Some(Disabled), ctx.value.status);
    }

    /**
     * `removeConnection(context)`: the node leaves the idle set and its status is
     * reported as DISABLED; whether or not that report fails, the registry entry and the
     * listener are removed.
     */
    method RemoveConnection(ctx: Option<NodeContext>) returns (r: Result<()>)
      requires Valid()
      modifies this
      ensures Valid()
      ensures ctx.None? ==> r.IllegalArgument? && unchanged(this)
      ensures ctx.Some? ==>
        connections == old(connections) - {ctx.value.uuid}
        && listening == old(listening) - {ctx.value.uuid}
        && idle == old(idle) - {ctx.value.uuid}
        && (r.Ok? <==> ctx.value.status.Some?)
      ensures ctx.Some? && ctx.value.status.Some? && ctx.value.status.value != Disabled ==>
        cancelledBroadcasts == old(cancelledBroadcasts) + [ctx.value.uuid]
        && workingUpdates == old(workingUpdates) + [(ctx.value.status.value, Disabled)]
      ensures ctx.None? || ctx.value.status.None? || ctx.value.status == Some(Disabled) ==>
        cancelledBroadcasts == old(cancelledBroadcasts) && workingUpdates == old(workingUpdates)
      ensures unchanged(this`stopped, this`closed)
    {
      if ctx.None? {
        return IllegalArgument("wrapper is null");
      }
      idle := idle - {ctx.value.uuid};
      r := UpdateConnectionStatus(ctx, ctx.value.status, Some(Disabled));
      connections := connections - {ctx.value.uuid};
      listening := listening - {ctx.value.uuid};
    }

    /** `removeConnection(uuid)`: null for an unknown uuid; otherwise the context is removed and returned. */
    method RemoveConnectionByUuid(uuid: string) returns (r: Result<Option<NodeContext>>)
      requires Valid()
      modifies this
      ensures Valid()
      ensures uuid !in old(connections) ==> r == Ok(None) && unchanged(this)
      ensures uuid in old(connections) ==>
        connections == old(connections) - {uuid}
        && listening == old(listening) - {uuid}
        && idle == old(idle) - {uuid}
        && (r.Ok? ==> r.value == Some(old(connections)[uuid]))
        && (r.Ok? <==> old(connections)[uuid].status.Some?)
      ensures uuid in old(connections) && old(connections)[uuid].status.Some? && old(connections)[uuid].status.value != Disabled ==>
        cancelledBroadcasts == old(cancelledBroadcasts) + [uuid]
        && workingUpdates == old(workingUpdates) + [(old(connections)[uuid].status.value, Disabled)]
      ensures uuid in old(connections) && (old(connections)[uuid].status.None? || old(connections)[uuid].status == Some(Disabled)) ==>
        cancelledBroadcasts == old(cancelledBroadcasts) && workingUpdates == old(workingUpdates)
      ensures unchanged(this`stopped, this`closed)
    {
      if uuid !in connections {
        return Ok(None);
      }
      var ctx := connections[uuid];
      var removed := RemoveConnection(Some(ctx));
      if removed.IllegalArgument? {
        return IllegalArgument(removed.message);
      }
      r := Ok(Some(ctx));
    }

    /** `activateNode`: null for an unknown uuid; the active flag is changed only when it differs. */
    method ActivateNode(uuid: string, activate: bool) returns (c: Option<NodeContext>)
      requires Valid()
      modifies this
      ensures Valid()
      ensures uuid !in old(connections) ==> c.None? && unchanged(this)
      ensures uuid in old(connections) ==>
        c == Some(old(connections)[uuid].(active := activate))
        && connections == old(connections)[uuid := c.value]
      ensures unchanged(this`idle, this`listening, this`cancelledBroadcasts, this`workingUpdates)
    {
      if uuid !in connections {
        return None;
      }
      var ctx := connections[uuid];
      if activate != ctx.active {
        ctx := ctx.(active := activate);
        connections := connections[uuid := ctx];
      }
      c := Some(ctx);
    }

    /** `close`: the server stops, every registered connection is closed, and the registry is emptied. */
    method Close()
      requires Valid()
      modifies this
      ensures Valid()
      ensures stopped && connections == map[] && NbNodes() == 0
      ensures closed == old(closed) + old(connections).Keys
    {
      stopped := true;
      closed := closed + connections.Keys;
      connections := map[];
    }
  }
}
