/**
 * The network connection interceptors: the list loaded at start-up, and the checks run on
 * each connecting or accepted socket, which pass only when every interceptor lets it through.
 */
module Interceptors {

  datatype Option<T> = None | Some(value: T)

  /** The two hooks of an interceptor. */
  datatype Hook = OnConnect | OnAccept

  /** An interceptor, by the sockets (or socket channels) each of its hooks lets through. */
  datatype Interceptor = Interceptor(connects: set<nat>, accepts: set<nat>)

  /** The answer of one interceptor's hook for one socket. */
  function Allows(i: Interceptor, hook: Hook, socket: nat): (b: bool)
    ensures b <==> (hook == OnConnect && socket in i.connects) || (hook == OnAccept && socket in i.accepts)
  {
    match hook
    case OnConnect => socket in i.connects
    case OnAccept => socket in i.accepts
  }

  /**
   * `hasInterceptor` as written: it returns the negation of "at least one interceptor
   * was loaded", so it answers false exactly when there are interceptors.
   */
  function HasInterceptorAsWritten(interceptors: seq<Interceptor>): (b: bool)
    ensures b <==> interceptors == []
  {
    !(|interceptors| > 0)
  }

  /** `hasInterceptor` as documented: whether at least one interceptor was loaded. */
  function HasInterceptor(interceptors: seq<Interceptor>): (b: bool)
    ensures b <==> exists i :: i in interceptors
  {
    if |interceptors| > 0 then assert interceptors[0] in interceptors; true else false
  }

  /** With one interceptor loaded, the method as written says there is none. */
  lemma HasInterceptorInverted(i: Interceptor)
    ensures HasInterceptor([i]) && !HasInterceptorAsWritten([i])
  {
  }

  /** The documented answer is the negation of the answer as written, for every list. */
  lemma HasInterceptorAgrees(interceptors: seq<Interceptor>)
    ensures HasInterceptor(interceptors) == !HasInterceptorAsWritten(interceptors)
  {
  }

  /**
   * The `invokeOnConnect` and `invokeOnAccept` loops: with no interceptor the socket
   * passes; otherwise the interceptors are asked in list order and the first refusal
   * ends the loop with false. `consulted` counts the interceptors asked.
   */
  method Invoke(interceptors: seq<Interceptor>, hook: Hook, socket: nat) returns (ok: bool, consulted: nat)
    ensures ok <==> forall k :: 0 <= k < |interceptors| ==> Allows(interceptors[k], hook, socket)
    ensures consulted <= |interceptors|
    ensures ok ==> consulted == |interceptors|
    ensures !ok ==> consulted > 0 && !Allows(interceptors[consulted - 1], hook, socket)
    ensures forall k :: 0 <= k < consulted - 1 ==> Allows(interceptors[k], hook, socket)
  {
    consulted := 0;
    if !(|interceptors| > 0) {
      return true, 0;
    }
    var i := 0;
    while i < |interceptors|
      invariant 0 <= i <= |interceptors| && consulted == i
      invariant forall k :: 0 <= k < i ==> Allows(interceptors[k], hook, socket)
    {
      consulted := consulted + 1;
      if !Allows(interceptors[i], hook, socket) {
        return false, consulted;
      }
      i := i + 1;
    }
    ok := true;
  }

  /**
   * The socket-wrapper overloads: a null wrapper passes without asking any interceptor;
   * otherwise the wrapped socket is checked.
   */
  method InvokeWrapper(interceptors: seq<Interceptor>, hook: Hook, wrapper: Option<nat>) returns (ok: bool, consulted: nat)
    ensures wrapper.None? ==> ok && consulted == 0
    ensures wrapper.Some? ==>
      (ok <==> forall k :: 0 <= k < |interceptors| ==> Allows(interceptors[k], hook, wrapper.value))
    ensures consulted <= |interceptors|
  {
    if wrapper.None? {
      return true, 0;
    }
    ok, consulted := Invoke(interceptors, hook, wrapper.value);
  }
}
