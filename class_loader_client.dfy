/**
 * The client side of the driver's class loading: the context of a provider channel
 * (a client that serves classes to nodes), with its queue of requests to forward, and
 * the server that registers provider connections by client uuid.
 */
module ClientClassLoading {
  import opened Lists
  import opened ClassResources

  datatype ClientClassState =
    | WaitingInitialProviderRequest | SendingInitialProviderResponse
    | SendingProviderRequest | WaitingProviderResponse | IdleProvider

  datatype ClientClassTransition =
    | ToWaitingInitialProviderRequest | ToSendingInitialProviderResponse
    | ToSendingProviderRequest | ToWaitingProviderResponse | ToIdleProvider

  /** The node requests for the resource with this id, marked as answered with an error. */
  function Errored(r: ResourceRequest): (e: ResourceRequest)
    ensures e.channel == r.channel && e.resource.id == r.resource.id
    ensures e.resource.state == NodeResponseError
  {
    r.(resource := r.resource.(state := NodeResponseError))
  }

  /** Every request of a list, answered with an error. */
  function MarkAll(rs: seq<ResourceRequest>): (es: seq<ResourceRequest>)
    ensures |es| == |rs| && forall k :: 0 <= k < |rs| ==> es[k] == Errored(rs[k])
  {
    seq(|rs|, k requires 0 <= k < |rs| => Errored(rs[k]))
  }

  /** The node channels behind a list of requests. */
  function Channels(rs: seq<ResourceRequest>): set<nat>
  {
    set r | r in rs :: r.channel
  }

  /**
   * Taking out of the registry, one after the other, the node requests waiting for
   * each named resource: what was taken, in order, and what is left of the registry.
   */
  function Drain(names: seq<nat>, registry: map<nat, seq<ResourceRequest>>): (seq<ResourceRequest>, map<nat, seq<ResourceRequest>>)
  {
    if names == [] then ([], registry)
    else
      var (taken, left) := Drain(names[..|names| - 1], registry);
      var n := names[|names| - 1];
      if n in left then (taken + left[n], left - {n}) else (taken, left)
  }

  /** The requests to fail when the provider is lost: the queued ones, then the one in progress. */
  function Abandoned(pending: seq<ResourceRequest>, current: Option<ResourceRequest>): (all: seq<ResourceRequest>)
    ensures current.None? ==> all == pending
    ensures current.Some? ==> all == pending + [current.value]
  {
    if current.Some? then pending + [current.value] else pending
  }

  /** The resource names of a list of requests. */
  function Names(rs: seq<ResourceRequest>): (ns: seq<nat>)
    ensures |ns| == |rs|
    ensures forall i :: 0 <= i < |rs| ==> ns[i] == rs[i].resource.id
  {
    seq(|rs|, i requires 0 <= i < |rs| => rs[i].resource.id)
  }

  /**
   * Draining takes out exactly the entries of the named resources, and what it takes is
   * exactly the node requests registered under those names.
   */
  lemma {:induction false} DrainMeaning(names: seq<nat>, registry: map<nat, seq<ResourceRequest>>)
    ensures Drain(names, registry).1 == registry - (set n | n in names)
    ensures forall n, r :: n in names && n in registry && r in registry[n] ==> r in Drain(names, registry).0
    ensures forall r :: r in Drain(names, registry).0 ==> exists n :: n in names && n in registry && r in registry[n]
  {
    if names != [] {
      var front := names[..|names| - 1];
      var n := names[|names| - 1];
      DrainMeaning(front, registry);
      assert names == front + [n];
      assert (set x | x in names) == (set x | x in front) + {n};
    }
  }

  /** A provider channel's class-loading context. */
  class ClientClassContext {
    /** The uuid of the client this channel provides classes for. */
    var uuid: string
    var state: ClientClassState
    /** The requests not yet forwarded to the provider, oldest first. */
    var pendingRequests: seq<ResourceRequest>
    /** The request being served by the provider, if any. */
    var currentRequest: Option<ResourceRequest>
    /** The transitions requested for this channel, in order. */
    var transitions: seq<ClientClassTransition>

    constructor(uuid: string)
      ensures this.uuid == uuid && state == WaitingInitialProviderRequest
      ensures pendingRequests == [] && currentRequest == None && transitions == []
    {
      this.uuid := uuid;
      state := WaitingInitialProviderRequest;
      pendingRequests := [];
      currentRequest := None;
      transitions := [];
    }

    /** A client context always provides resources. */
    function IsProvider(): (b: bool)
      ensures b
    {
      true
    }

    /** The channel may be handed a request: it is idle, serves none, and has one queued. */
    predicate ReadyToSend()
      reads this
    {
      state == IdleProvider && currentRequest.None? && |pendingRequests| > 0
    }

    /** `processRequests`: the channel moves on to sending a request exactly when it is ready to. */
    method ProcessRequests()
      modifies this`transitions
      ensures transitions == old(transitions) + (if ReadyToSend() then [ToSendingProviderRequest] else [])
    {
      if state == IdleProvider && currentRequest.None? && NbPendingRequests() > 0 {
        transitions := transitions + [ToSendingProviderRequest];
      }
    }

    /**
     * `setState`: entering IDLE_PROVIDER processes the queued requests and answers false;
     * any other state answers what the base class answered.
     */
    method SetState(s: ClientClassState, baseResult: bool) returns (b: bool)
      modifies this`state, this`transitions
      ensures state == s
      ensures s == IdleProvider ==>
        (!b && transitions == old(transitions) + (if currentRequest.None? && |pendingRequests| > 0 then [ToSendingProviderRequest] else []))
      ensures s != IdleProvider ==> b == baseResult && transitions == old(transitions)
    {
      state := s;
      if s == IdleProvider {
        ProcessRequests();
        return false;
      }
      b := baseResult;
    }

    /**
     * `addRequest`: when the server did not take the request on (it was not already
     * being looked up for another node), it is queued here and the queue is processed.
     */
    method AddRequest(request: ResourceRequest, takenByServer: bool)
      modifies this`pendingRequests, this`transitions
      ensures takenByServer ==> pendingRequests == old(pendingRequests) && transitions == old(transitions)
      ensures !takenByServer ==>
        (pendingRequests == old(pendingRequests) + [request]
         && transitions == old(transitions) + (if state == IdleProvider && currentRequest.None? then [ToSendingProviderRequest] else []))
    {
      if !takenByServer {
        pendingRequests := pendingRequests + [request];
        ProcessRequests();
      }
    }

    /** `pollPendingRequest`: the oldest queued request, or null when none is queued. */
    method PollPendingRequest() returns (r: Option<ResourceRequest>)
      modifies this`pendingRequests
      ensures old(pendingRequests) == [] ==> r.None? && pendingRequests == []
      ensures old(pendingRequests) != [] ==> r == Some(old(pendingRequests)[0]) && pendingRequests == old(pendingRequests)[1..]
    {
      if pendingRequests == [] {
        return None;
      }
      r := Some(pendingRequests[0]);
      pendingRequests := pendingRequests[1..];
    }

    /** `getNbPendingRequests`. */
    function NbPendingRequests(): (n: nat)
      reads this
      ensures n == |pendingRequests|
    {
      |pendingRequests|
    }

    /** `hasPendingRequest`: some request is queued. */
    function HasPendingRequest(): (b: bool)
      reads this
      ensures b <==> NbPendingRequests() > 0
    {
      pendingRequests != []
    }

    /** `getCurrentRequest`. */
    function GetCurrentRequest(): (r: Option<ResourceRequest>)
      reads this
      ensures r == currentRequest
    {
      currentRequest
    }

    /** `setCurrentRequest`. */
    method SetCurrentRequest(r: Option<ResourceRequest>)
      modifies this`currentRequest
      ensures currentRequest == r
    {
      currentRequest := r;
    }

    /**
     * `handleProviderError`: the queued requests and the one in progress are dropped; for
     * each of them, the node requests the registry holds for that resource are taken out
     * and answered with an error, and every node channel among them is to be reset to
     * waiting for a provider's response.
     */
    method HandleProviderError(registry: ResourceRequestRegistry) returns (failed: seq<ResourceRequest>, reset: set<nat>)
      modifies this`pendingRequests, this`currentRequest, registry
      ensures pendingRequests == [] && currentRequest == None
      ensures var d := Drain(Names(Abandoned(old(pendingRequests), old(currentRequest))), old(registry.requests));
        registry.requests == d.1
        && failed == MarkAll(d.0)
        && reset == Channels(d.0)
    {
      var pendingList := pendingRequests;
      if currentRequest.Some? {
        pendingList := pendingList + [currentRequest.value];
        currentRequest := None;
      }
      pendingRequests := [];
      ghost var names := Names(pendingList);
      ghost var taken: seq<ResourceRequest> := [];
      failed := [];
      reset := {};
      var i := 0;
      while i < |pendingList|
        invariant 0 <= i <= |pendingList|
        invariant pendingRequests == [] && currentRequest == None
        invariant (taken, registry.requests) == Drain(names[..i], old(registry.requests))
        invariant failed == MarkAll(taken) && reset == Channels(taken)
      {
        assert names[..i + 1][..i] == names[..i];
        var coll := registry.Remove(pendingList[i].resource.id);
        if coll.Some? {
          var marked, channels := FailEach(coll.value);
          assert MarkAll(taken + coll.value) == MarkAll(taken) + marked;
          assert Channels(taken + coll.value) == Channels(taken) + channels;
          failed := failed + marked;
          reset := reset + channels;
          taken := taken + coll.value;
        }
        i := i + 1;
      }
      assert names[..i] == names;
    }
  }

  /** The inner loop of `handleProviderError`: each node request is answered with an error and its channel collected. */
  method FailEach(coll: seq<ResourceRequest>) returns (marked: seq<ResourceRequest>, channels: set<nat>)
    ensures marked == MarkAll(coll) && channels == Channels(coll)
  {
    marked := [];
    channels := {};
    var j := 0;
    while j < |coll|
      invariant 0 <= j <= |coll|
      invariant marked == MarkAll(coll[..j]) && channels == Channels(coll[..j])
    {
      assert coll[..j + 1] == coll[..j] + [coll[j]];
      marked := marked + [Errored(coll[j])];
      channels := channels + {coll[j].channel};
      j := j + 1;
    }
    assert coll[..j] == coll;
  }

  /** The server's register of node requests waiting for the resources of one provider, by resource id. */
  class ResourceRequestRegistry {
    var requests: map<nat, seq<ResourceRequest>>

    constructor(requests: map<nat, seq<ResourceRequest>>)
      ensures this.requests == requests
    {
      this.requests := requests;
    }

    /** `removeResourceRequest`: takes out and returns the requests for the resource, or null when there are none. */
    method Remove(id: nat) returns (coll: Option<seq<ResourceRequest>>)
      modifies this
      ensures id !in old(requests) ==> coll.None? && requests == old(requests)
      ensures id in old(requests) ==> coll == Some(old(requests)[id]) && requests == old(requests) - {id}
    {
      if id !in requests {
        return None;
      }
      coll := Some(requests[id]);
      requests := requests - {id};
    }
  }

  /** A provider channel, as the server sees it: its id and what its context knows. */
  datatype ProviderChannel = ProviderChannel(id: nat, uuid: Option<string>, connectionUuid: Option<string>, state: ClientClassState)

  /** A provider channel is idle exactly in IDLE_PROVIDER. */
  function IsIdle(channel: ProviderChannel): (b: bool)
    ensures b <==> channel.state == IdleProvider
  {
    channel.state == IdleProvider
  }

  /** A list of keys that visits every key of the map exactly once. */
  predicate EnumeratesKeys<V>(order: seq<string>, m: map<string, V>)
  {
    (forall i :: 0 <= i < |order| ==> order[i] in m)
    && (forall u :: u in m ==> u in order)
    && (forall i, j :: 0 <= i < j < |order| ==> order[i] != order[j])
  }

  /** The channels of the listed uuids, one uuid's list after the other. */
  function Concat(m: map<string, seq<nat>>, order: seq<string>): seq<nat>
    requires forall i :: 0 <= i < |order| ==> order[i] in m
  {
    if order == [] then [] else Concat(m, order[..|order| - 1]) + m[order[|order| - 1]]
  }

  /** Every channel of a listed uuid is in the concatenation, and nothing else is. */
  lemma {:induction false} ConcatMeaning(m: map<string, seq<nat>>, order: seq<string>)
    requires forall i :: 0 <= i < |order| ==> order[i] in m
    ensures forall c :: c in Concat(m, order) <==> exists i :: 0 <= i < |order| && c in m[order[i]]
  {
    if order != [] {
      var front := order[..|order| - 1];
      ConcatMeaning(m, front);
      assert forall i :: 0 <= i < |front| ==> front[i] == order[i];
    }
  }

  /** The server for provider channels. */
  class ClientClassNioServer {
    /** The provider channels of each client, by client uuid. */
    var providerConnections: map<string, seq<nat>>
    var stopped: bool
    /** The channels closed, and the client connections closed with them, in order. */
    var closedChannels: seq<nat>
    var closedClientConnections: seq<Option<string>>

    /** No client is registered with an empty list. */
    predicate Valid()
      reads this
    {
      forall u :: u in providerConnections ==> providerConnections[u] != []
    }

    constructor()
      ensures Valid() && providerConnections == map[] && !stopped
      ensures closedChannels == [] && closedClientConnections == []
    {
      providerConnections := map[];
      stopped := false;
      closedChannels := [];
      closedClientConnections := [];
    }

    /** The provider channels of a client: its list, or none for an unknown uuid. */
    function ConnectionsOf(uuid: string): (cs: seq<nat>)
      reads this
      ensures uuid !in providerConnections ==> cs == []
      ensures uuid in providerConnections ==> cs == providerConnections[uuid]
    {
      if uuid in providerConnections then providerConnections[uuid] else []
    }

    /** `addProviderConnection`: the channel joins the client's list; other clients are untouched. */
    method AddProviderConnection(uuid: string, channel: nat)
      requires Valid()
      modifies this`providerConnections
      ensures Valid()
      ensures providerConnections == old(providerConnections)[uuid := old(ConnectionsOf(uuid)) + [channel]]
    {
      providerConnections := providerConnections[uuid := ConnectionsOf(uuid) + [channel]];
    }

    /** `removeProviderConnection`: that one channel leaves that client's list, and a client left without channels is dropped. */
    method RemoveProviderConnection(uuid: string, channel: nat)
      requires Valid()
      modifies this`providerConnections
      ensures Valid()
      ensures uuid !in old(providerConnections) ==> providerConnections == old(providerConnections)
      ensures uuid in old(providerConnections) ==>
        var rest := RemoveFirst(old(providerConnections)[uuid], channel);
        providerConnections == (if rest == [] then old(providerConnections) - {uuid} else old(providerConnections)[uuid := rest])
    {
      if uuid !in providerConnections {
        return;
      }
      var rest := RemoveFirst(providerConnections[uuid], channel);
      if rest == [] {
        providerConnections := providerConnections - {uuid};
      } else {
        providerConnections := providerConnections[uuid := rest];
      }
    }

    /** `getProviderConnections`: a copy of the client's list. */
    method GetProviderConnections(uuid: string) returns (cs: seq<nat>)
      ensures cs == ConnectionsOf(uuid)
    {
      cs := ConnectionsOf(uuid);
    }

    /** `getAllConnections`, visiting the clients in `order`: a copy of all their lists, one after the other. */
    method GetAllConnections(order: seq<string>) returns (cs: seq<nat>)
      requires EnumeratesKeys(order, providerConnections)
      ensures cs == Concat(providerConnections, order)
    {
      cs := [];
      var i := 0;
      while i < |order|
        invariant 0 <= i <= |order|
        invariant cs == Concat(providerConnections, order[..i])
      {
        assert order[..i + 1][..i] == order[..i];
        cs := cs + providerConnections[order[i]];
        i := i + 1;
      }
      assert order[..i] == order;
    }

    /** `removeAllConnections`: does nothing unless the server is stopped; then the providers are forgotten. */
    method RemoveAllConnections()
      modifies this`providerConnections
      ensures !stopped ==> providerConnections == old(providerConnections)
      ensures stopped ==> providerConnections == map[]
    {
      if !stopped {
        return;
      }
      providerConnections := map[];
    }

    /**
     * `closeConnection`: a null channel is skipped; otherwise the channel is unregistered
     * from its client (when its context knows the client's uuid), closed, and the client
     * connection it belongs to is closed too.
     */
    method CloseConnection(channel: Option<ProviderChannel>)
      requires Valid()
      modifies this`providerConnections, this`closedChannels, this`closedClientConnections
      ensures Valid()
      ensures channel.None? ==> unchanged(this)
      ensures channel.Some? ==>
        closedChannels == old(closedChannels) + [channel.value.id]
        && closedClientConnections == old(closedClientConnections) + [channel.value.connectionUuid]
        && (channel.value.uuid.None? ==> providerConnections == old(providerConnections))
        && (channel.value.uuid.Some? ==> ConnectionsOf(channel.value.uuid.value) == RemoveFirst(old(ConnectionsOf(channel.value.uuid.value)), channel.value.id))
    {
      if channel.None? {
        return;
      }
      var c := channel.value;
      if c.uuid.Some? {
        RemoveProviderConnection(c.uuid.value, c.id);
      }
      closedChannels := closedChannels + [c.id];
      closedClientConnections := closedClientConnections + [c.connectionUuid];
    }
  }

  /** The channels of every client, however the clients are visited, are exactly the registered ones. */
  lemma AllConnectionsMeaning(m: map<string, seq<nat>>, order: seq<string>, c: nat)
    requires EnumeratesKeys(order, m)
    ensures c in Concat(m, order) <==> exists u :: u in m && c in m[u]
  {
    ConcatMeaning(m, order);
    if exists u :: u in m && c in m[u] {
      var u :| u in m && c in m[u];
      var i :| 0 <= i < |order| && order[i] == u;
    }
  }
}
