/**
 * `Event<T>`: a registry of listeners keyed by the listener object's
 * identity. The registry holds each listener weakly; here a weak reference
 * is an `alive` flag that turns false when the object is deallocated.
 * An action is the closure registered with the listener; the model keeps
 * it as an opaque value of type `A`, and `Notify` returns the calls it
 * makes instead of running them.
 */
module Events {

  datatype Listener<A> = Listener(alive: bool, action: A)

  /** One invocation `action(subject)` made by `Notify` for `listener`. */
  datatype Call<T, A> = Call(listener: object, action: A, subject: T)

  /** The identities whose weak reference is still set. */
  function LiveKeys<A>(m: map<object, Listener<A>>): (ks: set<object>)
    ensures ks <= m.Keys
    ensures forall k :: k in m ==> (k in ks <==> m[k].alive)
  {
    set k | k in m && m[k].alive
  }

  /** The registry with every dead entry dropped. */
  function Live<A>(m: map<object, Listener<A>>): (r: map<object, Listener<A>>)
    ensures r.Keys == LiveKeys(m)
    ensures forall k :: k in r ==> r[k] == m[k]
  {
    map k | k in LiveKeys(m) :: m[k]
  }

  /** The listeners a sequence of calls went to, in call order. */
  function Targets<T, A>(calls: seq<Call<T, A>>): (r: seq<object>)
    ensures |r| == |calls|
    ensures forall i :: 0 <= i < |calls| ==> r[i] == calls[i].listener
  {
    if calls == [] then [] else [calls[0].listener] + Targets(calls[1..])
  }

  /** No listener is the target of two calls. */
  ghost predicate CalledOnce<T, A>(calls: seq<Call<T, A>>) {
    forall i, j :: 0 <= i < j < |calls| ==> calls[i].listener != calls[j].listener
  }

  class Event<T, A> {
    /** At most one entry per identity: the map's keys are the identities. */
    var listeners: map<object, Listener<A>>

    constructor()
      ensures listeners == map[]
    {
      listeners := map[];
    }

    /** Registers `listener`, replacing any earlier entry for the same object. */
    method AddListener(listener: object, action: A)
      modifies this
      ensures listeners == old(listeners)[listener := Listener(true, action)]
      ensures |listeners| == |old(listeners)| + (if listener in old(listeners) then 0 else 1)
    {
      listeners := listeners[listener := Listener(true, action)];
    }

    /** Drops the entry for `listener`, if any; all other entries stay. */
    method RemoveListener(listener: object)
      modifies this
      ensures listeners == old(listeners) - {listener}
      ensures listener !in old(listeners) ==> listeners == old(listeners)
    {
      listeners := listeners - {listener};
    }

    /**
     * The environment deallocates `listener`: its weak reference in the
     * registry becomes nil. Not an operation of `Event` itself.
     */
    method ListenerReleased(listener: object)
      modifies this
      ensures listener in old(listeners) ==>
        listeners == old(listeners)[listener := old(listeners)[listener].(alive := false)]
      ensures listener !in old(listeners) ==> listeners == old(listeners)
    {
      if listener in listeners {
        listeners := listeners[listener := listeners[listener].(alive := false)];
      }
    }

    /**
     * Walks the registry in unspecified order: a dead entry is removed and
     * skipped, a live entry's action is called with `subject`. Afterwards
     * the registry holds exactly the entries that were live, and every
     * live entry was called exactly once.
     */
    method Notify(subject: T) returns (calls: seq<Call<T, A>>)
      modifies this
      ensures listeners == Live(old(listeners))
      ensures forall k :: k in Targets(calls) <==> k in LiveKeys(old(listeners))
      ensures CalledOnce(calls)
      ensures forall c :: c in calls ==>
        c.subject == subject && c.listener in old(listeners) && c.action == old(listeners)[c.listener].action
    {
      ghost var m0 := listeners;
      var snapshot := listeners;
      var pending := listeners.Keys;
      calls := [];
      while pending != {}
        invariant pending <= m0.Keys
        invariant listeners.Keys == set k | k in m0 && (k in pending || m0[k].alive)
        invariant forall k :: k in listeners ==> listeners[k] == m0[k]
        invariant forall k :: k in Targets(calls) <==> k in LiveKeys(m0) && k !in pending
        invariant CalledOnce(calls)
        invariant forall c :: c in calls ==> c.subject == subject && c.listener in m0 && c.action == m0[c.listener].action
        decreases pending
      {
        var id :| id in pending;
        var entry := snapshot[id];
        pending := pending - {id};
        if !entry.alive {
          listeners := listeners - {id};
        } else {
          assert Targets(calls + [Call(id, entry.action, subject)]) == Targets(calls) + [id];
          calls := calls + [Call(id, entry.action, subject)];
        }
      }
      assert listeners.Keys == Live(m0).Keys;
    }
  }
}
