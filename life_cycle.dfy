/**
 * The node life cycle listeners: registering and removing them, loading the ones found in
 * the class path, and notifying each of them of an event, in registration order, whatever
 * the others do.
 */
module LifeCycle {
  import opened Lists

  datatype Option<T> = None | Some(value: T)

  datatype EventType = NodeStarting | NodeEnding | JobHeaderLoaded | JobStarting | JobEnding | BeforeNextJob

  /**
   * A listener: its identity, whether it is its own error handler, and the events on
   * which its callback throws.
   */
  datatype Listener = Listener(id: nat, handlesOwnErrors: bool, throwsOn: set<EventType>)

  /** Who handles a listener's error: the listener itself, or the default handler. */
  datatype ErrorHandler = OwnHandler(listener: nat) | DefaultHandler

  /** What a notification left behind: the callback call, and the handling of its error. */
  datatype Record = Notified(listener: nat, event: EventType) | ErrorHandled(handler: ErrorHandler, listener: nat, event: EventType)

  /** `handleError`'s choice of handler. */
  function HandlerOf(l: Listener): (h: ErrorHandler)
    ensures l.handlesOwnErrors <==> h == OwnHandler(l.id)
    ensures !l.handlesOwnErrors <==> h == DefaultHandler
  {
    if l.handlesOwnErrors then OwnHandler(l.id) else DefaultHandler
  }

  /** What notifying one listener records. */
  function NotifyOne(l: Listener, e: EventType): seq<Record>
  {
    [Notified(l.id, e)] + (if e in l.throwsOn then [ErrorHandled(HandlerOf(l), l.id, e)] else [])
  }

  /** What notifying the listeners in order records. */
  function Notifications(ls: seq<Listener>, e: EventType): seq<Record>
  {
    if ls == [] then [] else Notifications(ls[..|ls| - 1], e) + NotifyOne(ls[|ls| - 1], e)
  }

  /** The listeners whose callback was called, in call order. */
  function CalledIds(rs: seq<Record>): seq<nat>
  {
    if rs == [] then []
    else CalledIds(rs[..|rs| - 1]) + (if rs[|rs| - 1].Notified? then [rs[|rs| - 1].listener] else [])
  }

  /** The identities of the listeners, in order. */
  function Ids(ls: seq<Listener>): (ids: seq<nat>)
    ensures |ids| == |ls| && forall k :: 0 <= k < |ls| ==> ids[k] == ls[k].id
  {
    seq(|ls|, k requires 0 <= k < |ls| => ls[k].id)
  }

  lemma {:induction false} CalledIdsConcat(a: seq<Record>, b: seq<Record>)
    ensures CalledIds(a + b) == CalledIds(a) + CalledIds(b)
  {
    if b != [] {
      CalledIdsConcat(a, b[..|b| - 1]);
      assert (a + b)[..|a + b| - 1] == a + b[..|b| - 1];
    } else {
      assert a + b == a;
    }
  }

  /** Notifying one listener calls its callback once, whether or not it throws. */
  lemma NotifyOneCalls(l: Listener, e: EventType)
    ensures CalledIds(NotifyOne(l, e)) == [l.id]
  {
    var first := [Notified(l.id, e)];
    assert first[..0] == [];
    assert CalledIds(first) == [l.id];
    var one := NotifyOne(l, e);
    if e in l.throwsOn {
      assert one[..1] == first;
      assert one[1].ErrorHandled?;
    } else {
      assert one == first;
    }
  }

  /**
   * Every listener's callback is called once, in registration order, even when earlier
   * ones throw.
   */
  lemma {:induction false} EveryListenerCalled(ls: seq<Listener>, e: EventType)
    ensures CalledIds(Notifications(ls, e)) == Ids(ls)
  {
    if ls != [] {
      var front := ls[..|ls| - 1];
      var last := ls[|ls| - 1];
      EveryListenerCalled(front, e);
      CalledIdsConcat(Notifications(front, e), NotifyOne(last, e));
      NotifyOneCalls(last, e);
      assert Ids(ls) == Ids(front) + [last.id];
    }
  }

  /** Each error is handled by the listener itself when it is an error handler, and by the default handler otherwise. */
  lemma {:induction false} ErrorsHandled(ls: seq<Listener>, e: EventType)
    ensures forall r :: r in Notifications(ls, e) && r.ErrorHandled? ==>
      exists k :: 0 <= k < |ls| && r.listener == ls[k].id && e in ls[k].throwsOn && r.handler == HandlerOf(ls[k])
  {
    if ls != [] {
      ErrorsHandled(ls[..|ls| - 1], e);
    }
  }

  /** The listeners a class-path lookup yields; a listener whose loading raises an error is skipped. */
  function Loaded(found: seq<Option<Listener>>): (ls: seq<Listener>)
    ensures forall l :: l in ls <==> Some(l) in found
  {
    if found == [] then []
    else Loaded(found[..|found| - 1]) + (if found[|found| - 1].Some? then [found[|found| - 1].value] else [])
  }

  class LifeCycleEventHandler {
    var listeners: seq<Listener>
    /** Everything the notifications did, in order. */
    var log: seq<Record>

    constructor()
      ensures listeners == [] && log == []
    {
      listeners := [];
      log := [];
    }

    /** `addNodeLifeCycleListener`: a null listener is ignored. */
    method AddNodeLifeCycleListener(listener: Option<Listener>)
      modifies this`listeners
      ensures listener.None? ==> listeners == old(listeners)
      ensures listener.Some? ==> listeners == old(listeners) + [listener.value]
    {
      if listener.None? {
        return;
      }
      listeners := listeners + [listener.value];
    }

    /** `removeNodeLifeCycleListener`: a null listener is ignored. */
    method RemoveNodeLifeCycleListener(listener: Option<Listener>)
      modifies this`listeners
      ensures listener.None? ==> listeners == old(listeners)
      ensures listener.Some? ==> listeners == RemoveFirst(old(listeners), listener.value)
    {
      if listener.None? {
        return;
      }
      listeners := RemoveFirst(listeners, listener.value);
    }

    method RemoveAllListeners()
      modifies this`listeners
      ensures listeners == []
    {
      listeners := [];
    }

    /**
     * The `fire*` methods: each listener registered when the loop starts is called in
     * order; a throwing callback has its error handled and the loop goes on.
     */
    method Fire(e: EventType)
      modifies this`log
      ensures log == old(log) + Notifications(listeners, e)
    {
      var snapshot := listeners;
      var i := 0;
      while i < |snapshot|
        invariant 0 <= i <= |snapshot|
        invariant log == old(log) + Notifications(snapshot[..i], e)
      {
        assert snapshot[..i + 1][..i] == snapshot[..i];
        var listener := snapshot[i];
        log := log + [Notified(listener.id, e)];
        if e in listener.throwsOn {
          log := log + [ErrorHandled(HandlerOf(listener), listener.id, e)];
        }
        i := i + 1;
      }
      assert snapshot[..i] == snapshot;
    }

    /** `loadListeners`: each listener found is added in turn; one whose loading raises an error is skipped. */
    method LoadListeners(found: seq<Option<Listener>>)
      modifies this`listeners
      ensures listeners == old(listeners) + Loaded(found)
    {
      var i := 0;
      while i < |found|
        invariant 0 <= i <= |found|
        invariant listeners == old(listeners) + Loaded(found[..i])
      {
        assert found[..i + 1][..i] == found[..i];
        AddNodeLifeCycleListener(found[i]);
        i := i + 1;
      }
      assert found[..i] == found;
    }
  }
}
