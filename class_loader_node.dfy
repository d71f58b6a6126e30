/**
 * The node side of the driver's class loading: the node channel's context with its map
 * of responses still awaited from providers, and the state in which the channel checks
 * which of those responses have arrived.
 */
module NodeClassLoading {
  import opened ClassResources

  datatype NodeClassState =
    | SendInitialNodeResponse | WaitingInitialNodeRequest | WaitingNodeRequest
    | SendingNodeResponse | NodeWaitingProviderResponse | IdleNode

  datatype NodeClassTransition = ToSendingNodeResponse | ToIdleNode | ToNodeWaitingProviderResponse

  /** The resource a node context answers with: one resource, or a composite of several keyed by id. */
  datatype ContextResource = Single(resource: Resource) | Composite(items: map<nat, Resource>)

  /** A list of keys that visits every key of the map exactly once (a hash map's iteration order). */
  predicate Enumerates<V>(order: seq<nat>, m: map<nat, V>)
  {
    (forall i :: 0 <= i < |order| ==> order[i] in m)
    && (forall k :: k in m ==> k in order)
    && (forall i, j :: 0 <= i < j < |order| ==> order[i] != order[j])
  }

  /** Every pending entry is keyed by the id of its request's resource. */
  predicate Keyed(m: map<nat, ResourceRequest>)
  {
    forall k :: k in m ==> m[k].resource.id == k
  }

  /** The answered resources met while visiting the entries in `order`, in that order. */
  function Completed(m: map<nat, ResourceRequest>, order: seq<nat>): (done: seq<Resource>)
    requires forall i :: 0 <= i < |order| ==> order[i] in m
    ensures |done| <= |order|
    ensures forall r :: r in done ==> IsResponse(r.state)
  {
    if order == [] then []
    else
      var done := Completed(m, order[..|order| - 1]);
      var r := m[order[|order| - 1]].resource;
      if IsResponse(r.state) then done + [r] else done
  }

  /** Adding or replacing each resource of `done` in a composite, by id, in order. */
  function AddAll(items: map<nat, Resource>, done: seq<Resource>): map<nat, Resource>
  {
    if done == [] then items
    else AddAll(items, done[..|done| - 1])[done[|done| - 1].id := done[|done| - 1]]
  }

  /** The last resource of `done` with the given id, if any. */
  function LastWithId(done: seq<Resource>, k: nat): (r: Option<Resource>)
    ensures r.Some? ==> r.value in done && r.value.id == k
    ensures r.None? <==> forall d :: d in done ==> d.id != k
  {
    if done == [] then None
    else if done[|done| - 1].id == k then Some(done[|done| - 1])
    else LastWithId(done[..|done| - 1], k)
  }

  /** The context's resource once the answered resources are taken in: a composite absorbs them all, otherwise the last one wins. */
  function Absorb(res: Option<ContextResource>, done: seq<Resource>): Option<ContextResource>
  {
    if res.Some? && res.value.Composite? then Some(Composite(AddAll(res.value.items, done)))
    else if done == [] then res
    else Some(Single(done[|done| - 1]))
  }

  /** The entries left in the copied map once the answered resources are removed from it. */
  function Remaining(m: map<nat, ResourceRequest>, order: seq<nat>): map<nat, ResourceRequest>
    requires forall i :: 0 <= i < |order| ==> order[i] in m
  {
    m - Ids(Completed(m, order))
  }

  /** The node channel's class-loading context. */
  class NodeClassContext {
    var state: NodeClassState
    /** The resource this context answers the node with (null when there is none). */
    var resource: Option<ContextResource>
    /** The requests still waiting for a provider's answer, by resource id. */
    var pendingResponses: map<nat, ResourceRequest>
    /** The resources serialized for sending to the node, in order. */
    var serialized: seq<Option<ContextResource>>
    /** How many times the threads waiting on the channel were woken. */
    var wakeUps: nat

    constructor()
      ensures state == WaitingInitialNodeRequest && resource == None
      ensures pendingResponses == map[] && serialized == [] && wakeUps == 0
    {
      state := WaitingInitialNodeRequest;
      resource := None;
      pendingResponses := map[];
      serialized := [];
      wakeUps := 0;
    }

    /** A node context never provides resources. */
    function IsProvider(): (b: bool)
      ensures !b
    {
      false
    }

    /** `setState`: the base class's answer is returned; entering IDLE_NODE wakes the threads waiting on the channel. */
    method SetState(s: NodeClassState, baseResult: bool) returns (b: bool)
      modifies this`state, this`wakeUps
      ensures b == baseResult && state == s
      ensures wakeUps == old(wakeUps) + (if s == IdleNode then 1 else 0)
    {
      state := s;
      if s == IdleNode {
        wakeUps := wakeUps + 1;
      }
      b := baseResult;
    }

    /** `getPendingResponses`: a copy of the map (a value, so the caller cannot change the context through it). */
    method GetPendingResponses() returns (m: map<nat, ResourceRequest>)
      ensures m == pendingResponses
    {
      m := pendingResponses;
    }

    /** `addPendingResponse`: maps the resource to the request, replacing any earlier request. */
    method AddPendingResponse(id: nat, request: ResourceRequest)
      modifies this`pendingResponses
      ensures pendingResponses == old(pendingResponses)[id := request]
    {
      pendingResponses := pendingResponses[id := request];
    }

    /** `removePendingResponses`: every listed resource is removed, then the list is emptied. */
    method RemovePendingResponses(toRemove: ResourceList)
      modifies this`pendingResponses, toRemove
      ensures pendingResponses == old(pendingResponses) - Ids(old(toRemove.items))
      ensures toRemove.items == []
    {
      var items := toRemove.items;
      var i := 0;
      while i < |items|
        invariant 0 <= i <= |items|
        invariant pendingResponses == old(pendingResponses) - Ids(items[..i])
      {
        assert Ids(items[..i + 1]) == Ids(items[..i]) + {items[i].id} by {
          assert items[..i + 1] == items[..i] + [items[i]];
        }
        pendingResponses := pendingResponses - {items[i].id};
        i := i + 1;
      }
      assert items[..i] == items;
      toRemove.items := [];
    }

    /** `getNbPendingResponses`. */
    function NbPendingResponses(): (n: nat)
      reads this
      ensures n == |pendingResponses|
    {
      |pendingResponses|
    }

    /** `hasPendingResponse`: some response is still awaited. */
    function HasPendingResponse(): (b: bool)
      reads this
      ensures b <==> NbPendingResponses() > 0
      ensures b <==> exists k :: k in pendingResponses
    {
      pendingResponses != map[]
    }

    /** `getPendingResponse`: the request awaiting the resource, or null for an unknown resource. */
    function GetPendingResponse(id: nat): (r: Option<ResourceRequest>)
      reads this
      ensures r.None? <==> id !in pendingResponses
      ensures r.Some? ==> id in pendingResponses && r.value == pendingResponses[id]
    {
      if id in pendingResponses then Some(pendingResponses[id]) else None
    }

    /** `sendResponse`: the context's resource is serialized and the node is to be answered. */
    method SendResponse() returns (t: NodeClassTransition)
      modifies this`serialized
      ensures t == ToSendingNodeResponse
      ensures serialized == old(serialized) + [resource]
    {
      serialized := serialized + [resource];
      t := ToSendingNodeResponse;
    }
  }

  /** A caller-owned collection of resources (the queue handed to `removePendingResponses`). */
  class ResourceList {
    var items: seq<Resource>

    constructor(items: seq<Resource>)
      ensures this.items == items
    {
      this.items := items;
    }
  }

  /**
   * NODE_WAITING_PROVIDER_RESPONSE's `performTransition`, visiting the entries of the
   * copied pending map in `order`: the answered resources are absorbed into the
   * context's resource and removed from the copy; the node is answered when the copy is
   * then empty, otherwise the channel goes idle. The context's own map is not changed.
   */
  method WaitingProviderResponse(context: NodeClassContext, order: seq<nat>) returns (t: NodeClassTransition)
    requires Enumerates(order, context.pendingResponses)
    modifies context`resource, context`serialized
    ensures var m := old(context.pendingResponses);
      context.resource == Absorb(old(context.resource), Completed(m, order))
      && (t == ToSendingNodeResponse <==> Remaining(m, order) == map[])
      && t != ToNodeWaitingProviderResponse
      && context.serialized == old(context.serialized) + (if t == ToSendingNodeResponse then [context.resource] else [])
  {
    var pending := context.GetPendingResponses();
    if pending == map[] {
      FirstVisited(pending, order);
      assert order == [];
      t := context.SendResponse();
      return;
    }
    var toRemove := AbsorbAnswered(context, pending, order);
    pending := RemoveEach(pending, toRemove);
    if pending == map[] {
      t := context.SendResponse();
    } else {
      t := ToIdleNode;
    }
  }

  /** The visit of the copied map: each answered resource is collected and absorbed into the context's resource. */
  method AbsorbAnswered(context: NodeClassContext, pending: map<nat, ResourceRequest>, order: seq<nat>) returns (toRemove: seq<Resource>)
    requires forall j :: 0 <= j < |order| ==> order[j] in pending
    modifies context`resource
    ensures toRemove == Completed(pending, order)
    ensures context.resource == Absorb(old(context.resource), toRemove)
  {
    var res := context.resource;
    var composite := res.Some? && res.value.Composite?;
    toRemove := [];
    var i := 0;
    while i < |order|
      invariant 0 <= i <= |order|
      invariant toRemove == Completed(pending, order[..i])
      invariant context.resource == Absorb(res, toRemove)
    {
      var r := pending[order[i]].resource;
      CompletedStep(pending, order, i);
      if IsResponse(r.state) {
        AbsorbStep(res, toRemove, r);
        toRemove := toRemove + [r];
        if composite {
          context.resource := Some(Composite(context.resource.value.items[r.id := r]));
        } else {
          context.resource := Some(Single(r));
        }
      }
      i := i + 1;
    }
    assert order[..i] == order;
  }

  /** The polling loop that empties the queue of answered resources, removing each from the copied map. */
  method RemoveEach(pending: map<nat, ResourceRequest>, toRemove: seq<Resource>) returns (rest: map<nat, ResourceRequest>)
    ensures rest == pending - Ids(toRemove)
  {
    rest := pending;
    var queue := toRemove;
    var j := 0;
    while queue != []
      invariant 0 <= j <= |toRemove| && queue == toRemove[j..]
      invariant rest == pending - Ids(toRemove[..j])
      decreases |queue|
    {
      assert Ids(toRemove[..j + 1]) == Ids(toRemove[..j]) + {toRemove[j].id} by {
        assert toRemove[..j + 1] == toRemove[..j] + [toRemove[j]];
      }
      rest := rest - {queue[0].id};
      queue := queue[1..];
      j := j + 1;
    }
    assert toRemove[..j] == toRemove;
  }

  /** The first key visited is a key of the map (so an empty map is visited by an empty order). */
  lemma FirstVisited<V>(m: map<nat, V>, order: seq<nat>)
    requires Enumerates(order, m)
    ensures order != [] ==> order[0] in m
  {
  }

  /** Visiting one more entry collects its resource when, and only when, it is answered. */
  lemma CompletedStep(m: map<nat, ResourceRequest>, order: seq<nat>, i: nat)
    requires forall j :: 0 <= j < |order| ==> order[j] in m
    requires i < |order|
    ensures Completed(m, order[..i + 1]) ==
      Completed(m, order[..i]) + (if IsResponse(m[order[i]].resource.state) then [m[order[i]].resource] else [])
  {
    assert order[..i + 1][..i] == order[..i];
  }

  /** Absorbing one more answered resource adds it to the composite, or makes it the context's resource. */
  lemma AbsorbStep(res: Option<ContextResource>, done: seq<Resource>, r: Resource)
    ensures res.Some? && res.value.Composite? ==>
      Absorb(res, done).Some? && Absorb(res, done).value.Composite?
      && Absorb(res, done + [r]) == Some(Composite(Absorb(res, done).value.items[r.id := r]))
    ensures !(res.Some? && res.value.Composite?) ==> Absorb(res, done + [r]) == Some(Single(r))
  {
    assert (done + [r])[..|done|] == done;
  }

  /** An answered resource is collected, and everything collected is an answered resource met in the visit. */
  lemma {:induction false} CompletedMeaning(m: map<nat, ResourceRequest>, order: seq<nat>)
    requires forall i :: 0 <= i < |order| ==> order[i] in m
    ensures forall i :: 0 <= i < |order| && IsResponse(m[order[i]].resource.state) ==> m[order[i]].resource in Completed(m, order)
    ensures forall r :: r in Completed(m, order) ==> exists i :: 0 <= i < |order| && m[order[i]].resource == r
  {
    if order != [] {
      var front := order[..|order| - 1];
      CompletedMeaning(m, front);
      assert forall i :: 0 <= i < |front| ==> front[i] == order[i];
    }
  }

  /**
   * With every entry keyed by its own resource, the entries left after the transition
   * are exactly those whose resource has no answer yet; so the node is answered exactly
   * when every awaited resource has been answered.
   */
  lemma RemainingUnanswered(m: map<nat, ResourceRequest>, order: seq<nat>)
    requires Enumerates(order, m) && Keyed(m)
    ensures forall k :: k in Remaining(m, order) <==> k in m && !IsResponse(m[k].resource.state)
    ensures Remaining(m, order) == map[] <==> forall k :: k in m ==> IsResponse(m[k].resource.state)
  {
    CompletedMeaning(m, order);
    var done := Completed(m, order);
    forall k | k in m
      ensures k in Ids(done) <==> IsResponse(m[k].resource.state)
    {
      if IsResponse(m[k].resource.state) {
        var i :| 0 <= i < |order| && order[i] == k;
        assert m[k].resource in done;
      }
      if k in Ids(done) {
        var r :| r in done && r.id == k;
        var i :| 0 <= i < |order| && m[order[i]].resource == r;
        assert order[i] == k;
      }
    }
    if Remaining(m, order) == map[] {
      forall k | k in m
        ensures IsResponse(m[k].resource.state)
      {
        assert k !in Remaining(m, order);
      }
    }
  }

  /** A composite holds, for every id, the last answered resource with that id, and otherwise what it held before. */
  lemma {:induction false} AddAllMeaning(items: map<nat, Resource>, done: seq<Resource>, k: nat)
    ensures k in AddAll(items, done) <==> k in items || LastWithId(done, k).Some?
    ensures k in AddAll(items, done) ==>
      AddAll(items, done)[k] == (if LastWithId(done, k).Some? then LastWithId(done, k).value else items[k])
  {
    if done != [] {
      AddAllMeaning(items, done[..|done| - 1], k);
    }
  }

  /** Without a composite, the context ends with the last answered resource, or keeps its own when none was answered. */
  lemma AbsorbSingle(res: Option<ContextResource>, done: seq<Resource>)
    requires !(res.Some? && res.value.Composite?)
    ensures done != [] ==> Absorb(res, done) == Some(Single(done[|done| - 1]))
    ensures done == [] ==> Absorb(res, done) == res
  {
  }
}
