/**
 * The values the driver's class-loading channels exchange: a resource (a class or
 * file being looked up), its lookup state, and a node's request for it.
 */
module ClassResources {

  datatype Option<T> = None | Some(value: T)

  /** Where a resource lookup stands. */
  datatype ResourceState =
    | NodeInitiation | NodeRequest | NodeResponse | NodeResponseError
    | ProviderInitiation | ProviderRequest | ProviderResponse

  /**
   * A resource wrapper, identified by `id` (its name within a provider's class path;
   * two wrappers with the same id are equal as map keys).
   */
  datatype Resource = Resource(id: nat, state: ResourceState)

  /** A request for a resource, and the id of the node channel that made it. */
  datatype ResourceRequest = ResourceRequest(resource: Resource, channel: nat)

  /** The lookup of a resource has an answer, good or bad, from the provider. */
  predicate IsResponse(s: ResourceState)
  {
    s == NodeResponse || s == NodeResponseError
  }

  /** The ids of a sequence of resources. */
  function Ids(rs: seq<Resource>): (s: set<nat>)
    ensures forall r :: r in rs ==> r.id in s
    ensures forall k :: k in s ==> exists r :: r in rs && r.id == k
  {
    set r | r in rs :: r.id
  }
}
