/**
 * The event bus of src/store/eventBus.ts: a dictionary from event names to
 * lists of callbacks. Callbacks are opaque; a callback is identified by the
 * function object the caller registered (`!==` compares identities), and its
 * effect is recorded as one invocation in a shared trace.
 */
module Events {
  import opened Lists

  /** The identity of a registered function object. */
  datatype Callback = Callback(id: nat)

  /** One call of a callback with its arguments. */
  datatype Invocation<A> = Invocation(callback: Callback, args: seq<A>)

  /** The invocations, one per callback in list order, that calling every callback of `cbs` with `args` makes. */
  function Invocations<A>(cbs: seq<Callback>, args: seq<A>): seq<Invocation<A>> {
    if cbs == [] then [] else Invocations(cbs[..|cbs| - 1], args) + [Invocation(cbs[|cbs| - 1], args)]
  }

  /** The `i`-th invocation calls the `i`-th callback, with the given arguments: registration order is calling order. */
  lemma {:induction false} InvocationsInOrder<A>(cbs: seq<Callback>, args: seq<A>)
    ensures |Invocations(cbs, args)| == |cbs|
    ensures forall i :: 0 <= i < |cbs| ==> Invocations(cbs, args)[i] == Invocation(cbs[i], args)
  {
    if cbs != [] {
      InvocationsInOrder(cbs[..|cbs| - 1], args);
    }
  }

  /** The callbacks that a list of invocations calls, in order. */
  function Called<A>(calls: seq<Invocation<A>>): seq<Callback> {
    if calls == [] then [] else Called(calls[..|calls| - 1]) + [calls[|calls| - 1].callback]
  }

  lemma {:induction false} CalledInvocations<A>(cbs: seq<Callback>, args: seq<A>)
    ensures Called(Invocations(cbs, args)) == cbs
  {
    if cbs != [] {
      CalledInvocations(cbs[..|cbs| - 1], args);
      var calls := Invocations(cbs, args);
      assert calls[..|calls| - 1] == Invocations(cbs[..|cbs| - 1], args);
    }
  }

  /** A callback is called once per registration: registered twice, it runs twice. */
  lemma CallsPerRegistration<A>(cbs: seq<Callback>, args: seq<A>, cb: Callback)
    ensures multiset(Called(Invocations(cbs, args)))[cb] == multiset(cbs)[cb]
  {
    CalledInvocations(cbs, args);
  }

  /** After `off(event, cb)` an emit calls `cb` no more, and calls every other callback as often as before. */
  lemma OffSilences<A>(cbs: seq<Callback>, args: seq<A>, cb: Callback)
    ensures multiset(Called(Invocations(Without(cbs, cb), args)))[cb] == 0
    ensures forall other :: other != cb ==>
      multiset(Called(Invocations(Without(cbs, cb), args)))[other] == multiset(cbs)[other]
  {
    CalledInvocations(Without(cbs, cb), args);
    WithoutCounts(cbs, cb);
  }

  /** The effects of callbacks: every invocation, in the order it happened. */
  class Trace<A> {
    var calls: seq<Invocation<A>>

    constructor ()
      ensures calls == []
    {
      calls := [];
    }

    /** Calls `cb` with `args`. */
    method Invoke(cb: Callback, args: seq<A>)
      modifies this
      ensures calls == old(calls) + [Invocation(cb, args)]
    {
      calls := calls + [Invocation(cb, args)];
    }
  }

  class EventBus<A> {
    /** `listeners`: events that were never registered are absent. */
    var listeners: map<string, seq<Callback>>
    /** Where the callbacks' effects go. */
    const trace: Trace<A>

    constructor (trace: Trace<A>)
      ensures listeners == map[] && this.trace == trace
    {
      listeners := map[];
      this.trace := trace;
    }

    /** The callbacks registered for `event`, the empty list when there is none. */
    function ListenersOf(event: string): seq<Callback>
      reads this
    {
      if event in listeners then listeners[event] else []
    }

    /** `on`: appends `cb` to the list of `event`, creating the list when absent. */
    method On(event: string, cb: Callback)
      modifies this
      ensures listeners == old(listeners)[event := old(ListenersOf(event)) + [cb]]
    {
      listeners := listeners[event := ListenersOf(event) + [cb]];
    }

    /** `off`: removes every occurrence of `cb` from the list of `event`; no other event changes, and an unknown event is left alone. */
    method Off(event: string, cb: Callback)
      modifies this
      ensures event !in old(listeners) ==> listeners == old(listeners)
      ensures event in old(listeners) ==> listeners == old(listeners)[event := Without(old(listeners[event]), cb)]
    {
      if event !in listeners {
        return;
      }
      listeners := listeners[event := Without(listeners[event], cb)];
    }

    /** `emit`: calls the callbacks of `event` in registration order with `args`; an unknown event calls nothing. */
    method Emit(event: string, args: seq<A>)
      modifies trace
      ensures trace.calls == old(trace.calls) + Invocations(ListenersOf(event), args)
    {
      if event !in listeners {
        return;
      }
      var cbs := listeners[event];
      for i := 0 to |cbs|
        invariant trace.calls == old(trace.calls) + Invocations(cbs[..i], args)
      {
        assert cbs[..i + 1][..i] == cbs[..i];
        trace.Invoke(cbs[i], args);
      }
      assert cbs[..|cbs|] == cbs;
    }
  }
}
